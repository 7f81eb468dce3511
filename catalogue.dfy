/**
 * Rules of the product and product-image tables shared by the two product
 * handlers (backend/handlers/admin_product.go, backend/handlers/products.go):
 * the primary key and the `unique` SKU column of Product
 * (backend/models/models.go), the image rows the admin handler creates
 * from a list of URLs, and the one-primary-image-per-product rule those
 * rows keep.
 */
module Catalogue {
  import opened Wrappers
  import opened Models
  import opened Store
  import Seqs

  /** Product ids are issued below `nextId` and are unique, and so are SKUs (`gorm:"unique"`). */
  predicate Valid(products: seq<Product>, nextId: Id)
  {
    (forall i :: 0 <= i < |products| ==> products[i].id < nextId) &&
    (forall i, j :: 0 <= i < j < |products| ==> products[i].id != products[j].id && products[i].sku != products[j].sku)
  }

  /** Whether a product other than `except` holds `sku`. */
  function HoldsSku(sku: string, except: Option<Id>): Product -> bool
  {
    (p: Product) => p.sku == sku && (except.None? || p.id != except.value)
  }

  /** `Where("sku = ?")` (or `"sku = ? AND id != ?"`) followed by `First`. */
  function SkuHolder(products: seq<Product>, sku: string, except: Option<Id>): (r: Option<nat>)
    ensures r.Some? ==> r.value < |products| && products[r.value].sku == sku
    ensures r.Some? && except.Some? ==> products[r.value].id != except.value
    ensures r.None? <==> forall i :: 0 <= i < |products| ==> !HoldsSku(sku, except)(products[i])
  {
    Seqs.FindFirst(products, HoldsSku(sku, except))
  }

  /** Appending a product with a fresh id and an unused SKU keeps the table valid. */
  lemma AppendKeepsValid(products: seq<Product>, nextId: Id, p: Product)
    requires Valid(products, nextId)
    requires p.id == nextId && SkuHolder(products, p.sku, None).None?
    ensures Valid(products + [p], nextId + 1)
  {
    var t := products + [p];
    forall i, j | 0 <= i < j < |t| ensures t[i].id != t[j].id && t[i].sku != t[j].sku {
      if j == |products| {
        assert !HoldsSku(p.sku, None)(products[i]);
      }
    }
  }

  /** Raising the id counter keeps the table valid. */
  lemma ValidRaise(products: seq<Product>, nextId: Id, later: Id)
    requires Valid(products, nextId) && nextId <= later
    ensures Valid(products, later)
  {
  }

  /**
   * Replacing row `k` by a row with the same id keeps the table valid when
   * the new SKU is the old one or no other product holds it.
   */
  lemma UpdateKeepsValid(products: seq<Product>, nextId: Id, k: nat, p: Product)
    requires Valid(products, nextId) && k < |products| && p.id == products[k].id
    requires p.sku == products[k].sku || SkuHolder(products, p.sku, Some(p.id)).None?
    ensures Valid(products[k := p], nextId)
  {
    var t := products[k := p];
    forall i, j | 0 <= i < j < |t| ensures t[i].id != t[j].id && t[i].sku != t[j].sku {
      if p.sku != products[k].sku {
        if i == k {
          assert !HoldsSku(p.sku, Some(p.id))(products[j]);
        } else if j == k {
          assert !HoldsSku(p.sku, Some(p.id))(products[i]);
        }
      }
    }
  }

  /** Removing one row keeps the table valid. */
  lemma RemoveKeepsValid(products: seq<Product>, nextId: Id, k: nat)
    requires Valid(products, nextId) && k < |products|
    ensures Valid(products[..k] + products[k + 1..], nextId)
  {
    var t := products[..k] + products[k + 1..];
    assert forall i :: 0 <= i < |t| ==> t[i] == products[if i < k then i else i + 1];
  }

  /** Whether a string is a non-empty image URL. */
  predicate NonEmpty(url: string)
  {
    url != ""
  }

  /**
   * The image rows the admin handler creates for a product from a list of
   * URLs (backend/handlers/admin_product.go:112-122): one per non-empty URL,
   * in order, with consecutive ids from `firstId`, the product's name as
   * alt text, and primary exactly when it came from position 0.
   */
  function NewImages(productId: Id, urls: seq<string>, altText: string, firstId: Id): (r: seq<ProductImage>)
    ensures |r| <= |urls|
    ensures forall i :: 0 <= i < |r| ==>
      r[i].id == firstId + i && r[i].productId == productId && r[i].altText == altText && r[i].url != ""
    ensures |urls| > 0 && urls[0] != "" ==> |r| > 0 && r[0].url == urls[0]
    ensures forall i :: 0 <= i < |r| ==> (r[i].isPrimary <==> i == 0 && urls[0] != "")
    decreases |urls|
  {
    if |urls| == 0 then []
    else
      var n := |urls| - 1;
      var prior := NewImages(productId, urls[..n], altText, firstId);
      if urls[n] == "" then prior
      else prior + [ProductImage(firstId + |prior|, productId, urls[n], altText, n == 0)]
  }

  function Url(image: ProductImage): string
  {
    image.url
  }

  /** The created rows carry exactly the non-empty URLs, in request order. */
  lemma {:induction false} NewImagesUrls(productId: Id, urls: seq<string>, altText: string, firstId: Id)
    ensures Seqs.Map(NewImages(productId, urls, altText, firstId), Url) == Seqs.Filter(urls, NonEmpty)
    decreases |urls|
  {
    if |urls| > 0 {
      var n := |urls| - 1;
      assert urls == urls[..n] + [urls[n]];
      Seqs.FilterAppend(urls[..n], [urls[n]], NonEmpty);
      NewImagesUrls(productId, urls[..n], altText, firstId);
      var prior := NewImages(productId, urls[..n], altText, firstId);
      if urls[n] != "" {
        var r := NewImages(productId, urls, altText, firstId);
        assert r == prior + [r[|prior|]];
        assert Seqs.Map(r, Url) == Seqs.Map(prior, Url) + [urls[n]];
      }
    }
  }

  /** Whether an image is a primary image of product `productId`. */
  function PrimaryOf(productId: Id): ProductImage -> bool
  {
    (im: ProductImage) => im.productId == productId && im.isPrimary
  }

  /** No product has two primary images. */
  ghost predicate OnePrimaryEach(images: seq<ProductImage>)
  {
    forall q :: Seqs.Count(images, PrimaryOf(q)) <= 1
  }

  /** Every image belongs to a product id already issued, and none is a second primary. */
  ghost predicate ImagesValid(images: seq<ProductImage>, nextId: Id)
  {
    (forall i :: 0 <= i < |images| ==> images[i].productId < nextId) && OnePrimaryEach(images)
  }

  /** The rows created from one URL list hold at most one primary image, and none of another product. */
  lemma NewImagesPrimaries(productId: Id, urls: seq<string>, altText: string, firstId: Id, q: Id)
    ensures Seqs.Count(NewImages(productId, urls, altText, firstId), PrimaryOf(q)) <= (if q == productId then 1 else 0)
  {
    var r := NewImages(productId, urls, altText, firstId);
    if |r| > 0 {
      assert r == [r[0]] + r[1..];
      Seqs.CountAppend([r[0]], r[1..], PrimaryOf(q));
      assert forall i :: 0 <= i < |r[1..]| ==> !PrimaryOf(q)(r[1..][i]);
    }
  }

  /** The images not of product `productId` (`Where("product_id = ?", id).Delete`). */
  function OtherProducts(productId: Id): ProductImage -> bool
  {
    (im: ProductImage) => im.productId != productId
  }

  /** Deleting a product's images leaves it no primary image and the others theirs. */
  lemma {:induction false} FilterPrimaries(images: seq<ProductImage>, productId: Id, q: Id)
    ensures Seqs.Count(Seqs.Filter(images, OtherProducts(productId)), PrimaryOf(q)) ==
      if q == productId then 0 else Seqs.Count(images, PrimaryOf(q))
  {
    if |images| > 0 {
      FilterPrimaries(images[1..], productId, q);
      if OtherProducts(productId)(images[0]) {
        assert Seqs.Filter(images, OtherProducts(productId)) ==
          [images[0]] + Seqs.Filter(images[1..], OtherProducts(productId));
      }
    }
  }

  /** Adding one product's fresh rows to a table where it has no primary image keeps one primary each. */
  lemma AddImagesKeepsOnePrimary(images: seq<ProductImage>, productId: Id, urls: seq<string>, altText: string, firstId: Id)
    requires OnePrimaryEach(images) && Seqs.Count(images, PrimaryOf(productId)) == 0
    ensures OnePrimaryEach(images + NewImages(productId, urls, altText, firstId))
  {
    var r := NewImages(productId, urls, altText, firstId);
    forall q ensures Seqs.Count(images + r, PrimaryOf(q)) <= 1 {
      Seqs.CountAppend(images, r, PrimaryOf(q));
      NewImagesPrimaries(productId, urls, altText, firstId, q);
    }
  }

  /** The rows of a new product, whose id is the one just issued, keep the image table valid. */
  lemma AddNewProductImages(images: seq<ProductImage>, nextId: Id, urls: seq<string>, altText: string)
    requires ImagesValid(images, nextId)
    ensures ImagesValid(images + NewImages(nextId, urls, altText, nextId + 1),
      nextId + 1 + |NewImages(nextId, urls, altText, nextId + 1)|)
  {
    assert Seqs.Count(images, PrimaryOf(nextId)) == 0;
    AddImagesKeepsOnePrimary(images, nextId, urls, altText, nextId + 1);
  }

  /** Replacing an existing product's images by the rows of a URL list keeps the image table valid. */
  lemma ReplaceProductImages(images: seq<ProductImage>, nextId: Id, productId: Id, urls: seq<string>, altText: string)
    requires ImagesValid(images, nextId) && productId < nextId
    ensures ImagesValid(Seqs.Filter(images, OtherProducts(productId)) + NewImages(productId, urls, altText, nextId),
      nextId + |NewImages(productId, urls, altText, nextId)|)
  {
    var kept := Seqs.Filter(images, OtherProducts(productId));
    forall q ensures Seqs.Count(kept, PrimaryOf(q)) <= 1 {
      FilterPrimaries(images, productId, q);
    }
    FilterPrimaries(images, productId, productId);
    AddImagesKeepsOnePrimary(kept, productId, urls, altText, nextId);
  }

  /**
   * The image loop of CreateProduct and UpdateProduct
   * (backend/handlers/admin_product.go:112-122, 193-203): each non-empty URL
   * is inserted as a row with the next id.
   */
  method CreateImages(db: Database, productId: Id, urls: seq<string>, altText: string)
    modifies db`images, db`nextId
    ensures db.images == old(db.images) + NewImages(productId, urls, altText, old(db.nextId))
    ensures db.nextId == old(db.nextId) + |NewImages(productId, urls, altText, old(db.nextId))|
  {
    for k := 0 to |urls|
      invariant db.images == old(db.images) + NewImages(productId, urls[..k], altText, old(db.nextId))
      invariant db.nextId == old(db.nextId) + |NewImages(productId, urls[..k], altText, old(db.nextId))|
    {
      assert urls[..k + 1][..k] == urls[..k];
      if urls[k] != "" {
        db.images := db.images + [ProductImage(db.nextId, productId, urls[k], altText, k == 0)];
        db.nextId := db.nextId + 1;
      }
    }
    assert urls[..|urls|] == urls;
  }

  /** UpdateProduct's image replacement: the product's rows are deleted, then the new ones created. */
  method ReplaceImages(db: Database, productId: Id, urls: seq<string>, altText: string)
    modifies db`images, db`nextId
    ensures db.images == Seqs.Filter(old(db.images), OtherProducts(productId)) + NewImages(productId, urls, altText, old(db.nextId))
    ensures db.nextId == old(db.nextId) + |NewImages(productId, urls, altText, old(db.nextId))|
    ensures ImagesValid(old(db.images), old(db.nextId)) && productId < old(db.nextId) ==> ImagesValid(db.images, db.nextId)
  {
    if ImagesValid(db.images, db.nextId) && productId < db.nextId {
      ReplaceProductImages(db.images, db.nextId, productId, urls, altText);
    }
    db.images := Seqs.Filter(db.images, OtherProducts(productId));
    CreateImages(db, productId, urls, altText);
  }
}

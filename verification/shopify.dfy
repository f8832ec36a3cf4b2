/**
 * The raw catalog records returned by the storefront's product-listing endpoint,
 * as the feed formatter reads them. Every field the formatter looks up with a
 * default is an `Option`; a nested collection that may be missing is a sequence
 * that is empty when missing.
 */
module Shopify {
  import opened Wrappers

  /** One entry of `images` (or the legacy single `image`). */
  datatype Image = Image(
    src: Option<string>,
    width: Option<int>,
    height: Option<int>
  )

  /** One entry of `variants`. */
  datatype Variant = Variant(
    price: Option<string>,
    barcode: Option<string>,
    sku: Option<string>,
    compareAtPrice: Option<string>,
    inventoryQuantity: Option<int>
  )

  /** One entry of `options`: a named option such as "Color" and its declared values. */
  datatype ProductOption = ProductOption(
    name: Option<string>,
    values: seq<string>
  )

  /** One raw product record. */
  datatype Product = Product(
    id: Option<int>,
    title: Option<string>,
    bodyHtml: Option<string>,
    vendor: Option<string>,
    productType: Option<string>,
    handle: Option<string>,
    status: Option<string>,
    tags: Option<string>,
    publishedAt: Option<string>,
    updatedAt: Option<string>,
    variants: seq<Variant>,
    images: seq<Image>,
    image: Option<Image>,
    options: seq<ProductOption>
  )

  /** The empty variant mapping `{}` the formatter falls back on when a product has no variants. */
  const NoVariant := Variant(None, None, None, None, None)

  /** An image's pixel area, a missing width or height counting as 0. */
  function Area(img: Image): (a: int)
    ensures img.width.Some? && img.height.Some? ==> a == img.width.value * img.height.value
    ensures img.width.None? || img.height.None? ==> a == 0
  {
    img.width.GetOr(0) * img.height.GetOr(0)
  }

  /**
   * The records the formatter can process without raising: the first and second
   * entries of `images` and the legacy `image` are indexed with `['src']`, so
   * each must carry a source URL when it is present.
   */
  predicate WellFormed(p: Product) {
    && (|p.images| > 0 ==> p.images[0].src.Some?)
    && (|p.images| > 1 ==> p.images[1].src.Some?)
    && (p.image.Some? ==> p.image.value.src.Some?)
  }
}

/**
 * The formatted row read the way the CSV writer reads it: by column name. Each
 * lemma states what a formatted product's row holds under a group of names.
 */
module AwinColumns {
  import opened Wrappers
  import opened Shopify
  import opened AwinSchema
  import opened AwinFeed

  /** The copied product fields, looked up by name in the row. */
  lemma CopiedColumns(p: Product)
    requires WellFormed(p)
    ensures var r := FormatProduct(p);
            && Column(r, "product_id") == IntOr(p.id)
            && Column(r, "brand_name") == TextOr(p.vendor)
            && Column(r, "product_name") == TextOr(p.title)
            && Column(r, "description") == TextOr(p.bodyHtml)
            && Column(r, "valid_from") == TextOr(p.publishedAt)
            && Column(r, "last_updated") == TextOr(p.updatedAt)
            && Column(r, "keywords") == TextOr(p.tags)
  {
    IdentityColumns(FormatProduct(p));
  }

  /** Every placeholder column, looked up by name in the row, is empty. */
  lemma EmptyColumns(p: Product)
    requires WellFormed(p)
    ensures forall i :: 0 <= i < |PlaceholderNames| ==> Column(FormatProduct(p), PlaceholderNames[i]) == Text("")
  {
    PlaceholderColumns(FormatProduct(p));
  }

  /** The link, category and constant columns, looked up by name in the row. */
  lemma LinkAndCategoryColumns(p: Product)
    requires WellFormed(p)
    ensures var r := FormatProduct(p);
            && Column(r, "deep_link") == Column(r, "basket_link") == Text(ProductPagePrefix + p.handle.GetOr(""))
            && Column(r, "merchant_category") == Column(r, "product_type") == TextOr(p.productType)
            && Column(r, "currency") == Text("USD") && Column(r, "condition") == Text("new")
  {
    ProductColumns(FormatProduct(p));
  }

  /** The columns taken from the first variant, and the two flags, looked up by name in the row. */
  lemma VariantColumns(p: Product)
    requires WellFormed(p)
    ensures var r := FormatProduct(p);
            var v := FirstVariant(p);
            && Column(r, "price") == TextOr(v.price)
            && Column(r, "upc") == TextOr(v.barcode)
            && Column(r, "mpn") == TextOr(v.sku)
            && Column(r, "web_offer") == TextOr(v.compareAtPrice)
            && Column(r, "stock_quantity") == IntOr(v.inventoryQuantity)
            && Column(r, "in_stock") == InStock(v)
            && Column(r, "is_for_sale") == IsForSale(p)
  {
    OfferColumns(FormatProduct(p));
  }

  /** The image and colour columns, looked up by name in the row. */
  lemma ImageAndColourColumns(p: Product)
    requires WellFormed(p)
    ensures var r := FormatProduct(p);
            && Column(r, "merchant_thumb") == Text(if p.image.Some? then p.image.value.src.value else "")
            && Column(r, "image_url") == Text(ImageUrl(p))
            && Column(r, "alternate_image") == Text(AlternateImage(p))
            && Column(r, "large_image") == Text(LargeImage(p.images))
            && Column(r, "colour") == Text(Colour(p.options))
  {
    MediaColumns(FormatProduct(p));
  }
}

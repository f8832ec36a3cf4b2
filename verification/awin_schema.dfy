/**
 * The AWIN product feed schema: the 49 column names, one feed row, and the
 * row seen as the ordered name-to-value mapping the formatter builds.
 */
module AwinSchema {
  import opened Wrappers

  /** A row value: the formatter stores strings, except for the product id and
      the stock quantity, which it copies as integers when they are present. */
  datatype Cell = Text(s: string) | Int(n: int)

  /** The feed's column names, in column order. */
  const AwinHeaders: seq<string> := [
    "product_id", "merchant_category", "price", "brand_name", "upc", "ean", "mpn", "isbn", "model_number", "product_name",
    "description", "specifications", "promotional_text", "language", "deep_link", "merchant_thumb", "image_url", "delivery_time",
    "valid_from", "valid_to", "currency", "delivery_cost", "web_offer", "pre_order", "in_stock", "stock_quantity", "is_for_sale",
    "warranty", "condition", "product_type", "parent_product_id", "commission_group", "last_updated", "dimensions", "colour",
    "keywords", "custom1", "custom2", "custom3", "custom4", "custom5", "saving", "delivery_restrictions", "reviews",
    "average_rating", "rating", "alternate_image", "large_image", "basket_link"
  ]

  /** One feed row, a field per column. */
  datatype AwinRow = AwinRow(
    productId: Cell, merchantCategory: Cell, price: Cell, brandName: Cell, upc: Cell,
    ean: Cell, mpn: Cell, isbn: Cell, modelNumber: Cell, productName: Cell,
    description: Cell, specifications: Cell, promotionalText: Cell, language: Cell, deepLink: Cell,
    merchantThumb: Cell, imageUrl: Cell, deliveryTime: Cell, validFrom: Cell, validTo: Cell,
    currency: Cell, deliveryCost: Cell, webOffer: Cell, preOrder: Cell, inStock: Cell,
    stockQuantity: Cell, isForSale: Cell, warranty: Cell, condition: Cell, productType: Cell,
    parentProductId: Cell, commissionGroup: Cell, lastUpdated: Cell, dimensions: Cell, colour: Cell,
    keywords: Cell, custom1: Cell, custom2: Cell, custom3: Cell, custom4: Cell,
    custom5: Cell, saving: Cell, deliveryRestrictions: Cell, reviews: Cell, averageRating: Cell,
    rating: Cell, alternateImage: Cell, largeImage: Cell, basketLink: Cell
  )

  /** The columns no source data feeds: the formatter always leaves them empty. */
  predicate PlaceholdersEmpty(r: AwinRow) {
    && r.ean == Text("") && r.isbn == Text("") && r.modelNumber == Text("")
    && r.specifications == Text("") && r.promotionalText == Text("") && r.language == Text("")
    && r.deliveryTime == Text("") && r.validTo == Text("") && r.deliveryCost == Text("")
    && r.preOrder == Text("") && r.warranty == Text("") && r.parentProductId == Text("")
    && r.commissionGroup == Text("") && r.dimensions == Text("")
    && r.custom1 == Text("") && r.custom2 == Text("") && r.custom3 == Text("")
    && r.custom4 == Text("") && r.custom5 == Text("") && r.saving == Text("")
    && r.deliveryRestrictions == Text("") && r.reviews == Text("")
    && r.averageRating == Text("") && r.rating == Text("")
  }

  /**
   * The keys of the formatter's row dictionary, in the order its literal writes
   * them. A separate list from `AwinHeaders`: the writer rejects a row with a key
   * that is not a header; `RowKeysAreHeaders` shows the two lists are in fact equal.
   */
  const RowKeys: seq<string> := [
    "product_id", "merchant_category", "price", "brand_name", "upc", "ean", "mpn", "isbn", "model_number",
    "product_name", "description", "specifications", "promotional_text", "language", "deep_link",
    "merchant_thumb", "image_url", "delivery_time", "valid_from", "valid_to", "currency", "delivery_cost",
    "web_offer", "pre_order", "in_stock", "stock_quantity", "is_for_sale", "warranty", "condition",
    "product_type", "parent_product_id", "commission_group", "last_updated", "dimensions", "colour",
    "keywords", "custom1", "custom2", "custom3", "custom4", "custom5", "saving", "delivery_restrictions",
    "reviews", "average_rating", "rating", "alternate_image", "large_image", "basket_link"
  ]

  /**
   * The value the row stores under a column name: the one place that pairs each
   * name with its field. A name that is not a column reads as empty.
   */
  function Column(r: AwinRow, name: string): Cell {
    match name
    case "product_id" => r.productId
    case "merchant_category" => r.merchantCategory
    case "price" => r.price
    case "brand_name" => r.brandName
    case "upc" => r.upc
    case "ean" => r.ean
    case "mpn" => r.mpn
    case "isbn" => r.isbn
    case "model_number" => r.modelNumber
    case "product_name" => r.productName
    case "description" => r.description
    case "specifications" => r.specifications
    case "promotional_text" => r.promotionalText
    case "language" => r.language
    case "deep_link" => r.deepLink
    case "merchant_thumb" => r.merchantThumb
    case "image_url" => r.imageUrl
    case "delivery_time" => r.deliveryTime
    case "valid_from" => r.validFrom
    case "valid_to" => r.validTo
    case "currency" => r.currency
    case "delivery_cost" => r.deliveryCost
    case "web_offer" => r.webOffer
    case "pre_order" => r.preOrder
    case "in_stock" => r.inStock
    case "stock_quantity" => r.stockQuantity
    case "is_for_sale" => r.isForSale
    case "warranty" => r.warranty
    case "condition" => r.condition
    case "product_type" => r.productType
    case "parent_product_id" => r.parentProductId
    case "commission_group" => r.commissionGroup
    case "last_updated" => r.lastUpdated
    case "dimensions" => r.dimensions
    case "colour" => r.colour
    case "keywords" => r.keywords
    case "custom1" => r.custom1
    case "custom2" => r.custom2
    case "custom3" => r.custom3
    case "custom4" => r.custom4
    case "custom5" => r.custom5
    case "saving" => r.saving
    case "delivery_restrictions" => r.deliveryRestrictions
    case "reviews" => r.reviews
    case "average_rating" => r.averageRating
    case "rating" => r.rating
    case "alternate_image" => r.alternateImage
    case "large_image" => r.largeImage
    case "basket_link" => r.basketLink
    case _ => Text("")
  }

  /** The product-level columns by name: links, categories and constants. */
  lemma ProductColumns(r: AwinRow)
    ensures Column(r, "deep_link") == r.deepLink && Column(r, "basket_link") == r.basketLink
    ensures Column(r, "merchant_category") == r.merchantCategory && Column(r, "product_type") == r.productType
    ensures Column(r, "currency") == r.currency && Column(r, "condition") == r.condition
  {
  }

  /** The offer columns by name: pricing, identifiers, stock and the two flags. */
  lemma OfferColumns(r: AwinRow)
    ensures Column(r, "price") == r.price && Column(r, "upc") == r.upc && Column(r, "mpn") == r.mpn
    ensures Column(r, "web_offer") == r.webOffer && Column(r, "stock_quantity") == r.stockQuantity
    ensures Column(r, "in_stock") == r.inStock && Column(r, "is_for_sale") == r.isForSale
  {
  }

  /** The media columns by name: the four images and the colour. */
  lemma MediaColumns(r: AwinRow)
    ensures Column(r, "merchant_thumb") == r.merchantThumb && Column(r, "image_url") == r.imageUrl
    ensures Column(r, "alternate_image") == r.alternateImage && Column(r, "large_image") == r.largeImage
    ensures Column(r, "colour") == r.colour
  {
  }

  /** The copied columns by name: identity, descriptive and date fields. */
  lemma IdentityColumns(r: AwinRow)
    ensures Column(r, "product_id") == r.productId && Column(r, "brand_name") == r.brandName
    ensures Column(r, "product_name") == r.productName && Column(r, "description") == r.description
    ensures Column(r, "valid_from") == r.validFrom && Column(r, "last_updated") == r.lastUpdated
    ensures Column(r, "keywords") == r.keywords
  {
  }

  /** The names of the columns no source data feeds. */
  const PlaceholderNames: seq<string> := [
    "ean", "isbn", "model_number", "specifications", "promotional_text", "language", "delivery_time",
    "valid_to", "delivery_cost", "pre_order", "warranty", "parent_product_id", "commission_group",
    "dimensions", "custom1", "custom2", "custom3", "custom4", "custom5", "saving",
    "delivery_restrictions", "reviews", "average_rating", "rating"
  ]

  /** In a row whose placeholders are empty, every placeholder name reads as empty. */
  lemma PlaceholderColumns(r: AwinRow)
    requires PlaceholdersEmpty(r)
    ensures forall i :: 0 <= i < |PlaceholderNames| ==> Column(r, PlaceholderNames[i]) == Text("")
  {
  }

  /** The dictionary's keys are the feed's 49 column names, in column order. */
  lemma RowKeysAreHeaders()
    ensures RowKeys == AwinHeaders
    ensures |AwinHeaders| == 49
  {
  }

  /** The entries for the given keys, each key paired with the row's value under it. */
  function Pairs(r: AwinRow, keys: seq<string>): (e: seq<(string, Cell)>)
    ensures |e| == |keys|
    ensures forall i :: 0 <= i < |e| ==> e[i] == (keys[i], Column(r, keys[i]))
  {
    if |keys| == 0 then [] else [(keys[0], Column(r, keys[0]))] + Pairs(r, keys[1..])
  }

  /**
   * The row as the formatter's dictionary: its (key, value) entries in
   * insertion order. The keys are exactly the feed's column names, in order,
   * and each holds the row's value for that column.
   */
  function Entries(r: AwinRow): (e: seq<(string, Cell)>)
    ensures |e| == |AwinHeaders|
    ensures forall i :: 0 <= i < |e| ==> e[i] == (AwinHeaders[i], Column(r, AwinHeaders[i]))
  {
    RowKeysAreHeaders();
    Pairs(r, RowKeys)
  }

  /** The value stored under `key` in an ordered list of entries: the first entry with that key. */
  function Lookup(e: seq<(string, Cell)>, key: string): (r: Option<Cell>)
    ensures r.None? <==> forall i :: 0 <= i < |e| ==> e[i].0 != key
    ensures r.Some? ==> exists i :: 0 <= i < |e| && e[i] == (key, r.value)
  {
    if |e| == 0 then None
    else if e[0].0 == key then Some(e[0].1)
    else
      var rest := Lookup(e[1..], key);
      if rest.Some? then
        ghost var i :| 0 <= i < |e[1..]| && e[1..][i] == (key, rest.value);
        assert e[i + 1] == (key, rest.value);
        rest
      else
        rest
  }

  /**
   * Every row holds a value under every column name and under no other key:
   * the writer can look up each header and finds no stray field. The value
   * found under a column name is that column's field of the row.
   */
  lemma EveryHeaderPresent(r: AwinRow, key: string)
    ensures Lookup(Entries(r), key).Some? <==> key in AwinHeaders
    ensures key in AwinHeaders ==> Lookup(Entries(r), key) == Some(Column(r, key))
  {
  }
}

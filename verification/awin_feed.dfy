/**
 * The feed formatter: one AWIN row per raw product, built by selecting and
 * defaulting over the product's optional fields, variants, images and options.
 */
module AwinFeed {
  import opened Wrappers
  import opened Shopify
  import opened AwinSchema
  import Ascii

  /** The storefront URL every product page link starts with. */
  const ProductPagePrefix: string := "https://www.sarahalexis.com/products/"

  /** The variant whose fields stand for the whole product: the first one, or `{}` when there is none. */
  function FirstVariant(p: Product): (v: Variant)
    ensures |p.variants| > 0 ==> v == p.variants[0]
    ensures |p.variants| == 0 ==> v.price.None? && v.barcode.None? && v.sku.None?
                                  && v.compareAtPrice.None? && v.inventoryQuantity.None?
  {
    if |p.variants| > 0 then p.variants[0] else NoVariant
  }

  // ---------------------------------------------------------------------------
  // Images

  /** The main image: the first listed image, else the legacy single image, else nothing. */
  function ImageUrl(p: Product): (url: string)
    requires WellFormed(p)
    ensures |p.images| > 0 ==> url == p.images[0].src.value
    ensures |p.images| == 0 && p.image.Some? ==> url == p.image.value.src.value
    ensures |p.images| == 0 && p.image.None? ==> url == ""
  {
    if |p.images| > 0 then p.images[0].src.value
    else if p.image.Some? then p.image.value.src.value
    else ""
  }

  /** The alternate image: the second listed image, else nothing. */
  function AlternateImage(p: Product): (url: string)
    requires WellFormed(p)
    ensures |p.images| > 1 ==> url == p.images[1].src.value
    ensures |p.images| <= 1 ==> url == ""
  {
    if |p.images| > 1 then p.images[1].src.value else ""
  }

  /** `k` is the first of the first `n` images whose area none of those images exceeds. */
  predicate FirstMaxAmong(images: seq<Image>, n: nat, k: nat) {
    && k < n <= |images|
    && (forall j :: 0 <= j < n ==> Area(images[j]) <= Area(images[k]))
    && (forall j :: 0 <= j < k ==> Area(images[j]) < Area(images[k]))
  }

  /** `k` indexes the first image of largest area. */
  predicate IsFirstMax(images: seq<Image>, k: nat) {
    FirstMaxAmong(images, |images|, k)
  }

  /**
   * The left-to-right scan of a maximum by area: `best` is the winner among the
   * images before `i`, and a later image replaces it only when strictly larger.
   */
  function MaxByAreaFrom(images: seq<Image>, i: nat, best: nat): (k: nat)
    requires FirstMaxAmong(images, i, best)
    ensures IsFirstMax(images, k)
    decreases |images| - i
  {
    if i == |images| then best
    else if Area(images[i]) > Area(images[best]) then MaxByAreaFrom(images, i + 1, i)
    else MaxByAreaFrom(images, i + 1, best)
  }

  /** The index of the largest image, the first one when several share the largest area. */
  function LargestImageIndex(images: seq<Image>): (k: nat)
    requires |images| > 0
    ensures IsFirstMax(images, k)
  {
    MaxByAreaFrom(images, 1, 0)
  }

  /** At most one index is the first of largest area, so the tie-break is determined. */
  lemma FirstMaxUnique(images: seq<Image>, k1: nat, k2: nat)
    requires IsFirstMax(images, k1) && IsFirstMax(images, k2)
    ensures k1 == k2
  {
    assert Area(images[k1]) == Area(images[k2]);
  }

  /**
   * The large image: the source of the first image of largest area (empty when
   * that image has no source), or nothing when there are no images.
   */
  function LargeImage(images: seq<Image>): (url: string)
    ensures |images| == 0 ==> url == ""
    ensures forall k: nat :: IsFirstMax(images, k) ==> url == images[k].src.GetOr("")
  {
    if |images| > 0 then
      var k := LargestImageIndex(images);
      forall k': nat | IsFirstMax(images, k') ensures k' == k {
        FirstMaxUnique(images, k, k');
      }
      images[k].src.GetOr("")
    else ""
  }

  // ---------------------------------------------------------------------------
  // Colour

  /** An option name that lower-cases to "color" or "colour". */
  predicate IsColourName(name: string) {
    var folded := Ascii.Lower(name);
    folded == "color" || folded == "colour"
  }

  /** An option that supplies the colour: a colour name and at least one declared value. */
  predicate IsColourOption(o: ProductOption) {
    IsColourName(o.name.GetOr("")) && |o.values| > 0
  }

  /** `k` is the first option that supplies the colour. */
  predicate IsFirstColourOption(options: seq<ProductOption>, k: nat) {
    && k < |options|
    && IsColourOption(options[k])
    && forall j :: 0 <= j < k ==> !IsColourOption(options[j])
  }

  /** The position of the first option that supplies the colour, if any. */
  function FindColourOption(options: seq<ProductOption>): (r: Option<nat>)
    ensures r.Some? ==> IsFirstColourOption(options, r.value)
    ensures r.None? <==> forall j :: 0 <= j < |options| ==> !IsColourOption(options[j])
  {
    if |options| == 0 then None
    else if IsColourOption(options[0]) then Some(0)
    else
      match FindColourOption(options[1..])
      case Some(k) => Some(k + 1)
      case None => None
  }

  /** The colour: the first declared value of the first option that supplies one, else nothing. */
  function Colour(options: seq<ProductOption>): (c: string)
    ensures (forall j :: 0 <= j < |options| ==> !IsColourOption(options[j])) ==> c == ""
    ensures forall k: nat :: IsFirstColourOption(options, k) ==> c == options[k].values[0]
  {
    match FindColourOption(options)
    case Some(k) => options[k].values[0]
    case None => ""
  }

  // ---------------------------------------------------------------------------
  // Flags and the whole row

  /** "1" when the first variant reports a positive stock quantity (a missing one counting as 0). */
  function InStock(v: Variant): (c: Cell)
    ensures c == Text("1") || c == Text("0")
    ensures c == Text("1") <==> v.inventoryQuantity.Some? && v.inventoryQuantity.value > 0
  {
    if v.inventoryQuantity.GetOr(0) > 0 then Text("1") else Text("0")
  }

  /** "1" exactly when the product's status is "active". */
  function IsForSale(p: Product): (c: Cell)
    ensures c == Text("1") || c == Text("0")
    ensures c == Text("1") <==> p.status == Some("active")
  {
    if p.status.GetOr("") == "active" then Text("1") else Text("0")
  }

  /** An optional text field, empty when absent. */
  function TextOr(f: Option<string>): Cell {
    Text(f.GetOr(""))
  }

  /** An optional integer field, copied as an integer when present and empty when absent. */
  function IntOr(f: Option<int>): Cell {
    if f.Some? then Int(f.value) else Text("")
  }

  /** The AWIN row for one product. */
  function FormatProduct(p: Product): (r: AwinRow)
    requires WellFormed(p)
    // identity and descriptive fields are copied unchanged
    ensures r.productId == IntOr(p.id)
    ensures r.productName == TextOr(p.title) && r.description == TextOr(p.bodyHtml)
    ensures r.brandName == TextOr(p.vendor) && r.keywords == TextOr(p.tags)
    ensures r.validFrom == TextOr(p.publishedAt) && r.lastUpdated == TextOr(p.updatedAt)
    // both category columns carry the raw product type
    ensures r.merchantCategory == r.productType == TextOr(p.productType)
    // both links are the product page
    ensures r.deepLink == r.basketLink == Text(ProductPagePrefix + p.handle.GetOr(""))
    ensures r.currency == Text("USD") && r.condition == Text("new")
    ensures PlaceholdersEmpty(r)
    // pricing and stock come from the first variant
    ensures |p.variants| > 0 ==>
              && r.price == TextOr(p.variants[0].price)
              && r.upc == TextOr(p.variants[0].barcode)
              && r.mpn == TextOr(p.variants[0].sku)
              && r.webOffer == TextOr(p.variants[0].compareAtPrice)
              && r.stockQuantity == IntOr(p.variants[0].inventoryQuantity)
    ensures |p.variants| == 0 ==>
              && r.price == Text("") && r.upc == Text("") && r.mpn == Text("")
              && r.webOffer == Text("") && r.stockQuantity == Text("") && r.inStock == Text("0")
    // the flags are "1"/"0" and independent of each other
    ensures r.inStock == Text("1") || r.inStock == Text("0")
    ensures r.inStock == Text("1") <==> r.stockQuantity.Int? && r.stockQuantity.n > 0
    ensures r.isForSale == Text("1") || r.isForSale == Text("0")
    ensures r.isForSale == Text("1") <==> p.status == Some("active")
  {
    var v := FirstVariant(p);
    var link := Text(ProductPagePrefix + p.handle.GetOr(""));
    AwinRow(
      productId := IntOr(p.id),
      merchantCategory := TextOr(p.productType),
      price := TextOr(v.price),
      brandName := TextOr(p.vendor),
      upc := TextOr(v.barcode),
      ean := Text(""),
      mpn := TextOr(v.sku),
      isbn := Text(""),
      modelNumber := Text(""),
      productName := TextOr(p.title),
      description := TextOr(p.bodyHtml),
      specifications := Text(""),
      promotionalText := Text(""),
      language := Text(""),
      deepLink := link,
      merchantThumb := Text(if p.image.Some? then p.image.value.src.value else ""),
      imageUrl := Text(ImageUrl(p)),
      deliveryTime := Text(""),
      validFrom := TextOr(p.publishedAt),
      validTo := Text(""),
      currency := Text("USD"),
      deliveryCost := Text(""),
      webOffer := TextOr(v.compareAtPrice),
      preOrder := Text(""),
      inStock := InStock(v),
      stockQuantity := IntOr(v.inventoryQuantity),
      isForSale := IsForSale(p),
      warranty := Text(""),
      condition := Text("new"),
      productType := TextOr(p.productType),
      parentProductId := Text(""),
      commissionGroup := Text(""),
      lastUpdated := TextOr(p.updatedAt),
      dimensions := Text(""),
      colour := Text(Colour(p.options)),
      keywords := TextOr(p.tags),
      custom1 := Text(""),
      custom2 := Text(""),
      custom3 := Text(""),
      custom4 := Text(""),
      custom5 := Text(""),
      saving := Text(""),
      deliveryRestrictions := Text(""),
      reviews := Text(""),
      averageRating := Text(""),
      rating := Text(""),
      alternateImage := Text(AlternateImage(p)),
      largeImage := Text(LargeImage(p.images)),
      basketLink := link
    )
  }

  // ---------------------------------------------------------------------------
  // Properties of the selections

  /** An image of largest area that comes earlier wins over every later image of the same area. */
  lemma EarlierTieWins(images: seq<Image>, i: nat, j: nat)
    requires i < j < |images|
    requires forall k :: 0 <= k < |images| ==> Area(images[k]) <= Area(images[i])
    requires Area(images[j]) == Area(images[i])
    ensures LargestImageIndex(images) <= i
    ensures LargestImageIndex(images) != j
  {
  }

  /** Three images of 100x100, 300x50 and 10x10 pixels: the second is both the alternate and the large image. */
  lemma ThreeImagesExample(p: Product)
    requires p.images == [Image(Some("A"), Some(100), Some(100)),
                          Image(Some("B"), Some(300), Some(50)),
                          Image(Some("C"), Some(10), Some(10))]
    requires p.image.Some? ==> p.image.value.src.Some?
    ensures WellFormed(p)
    ensures FormatProduct(p).imageUrl == Text("A")
    ensures FormatProduct(p).alternateImage == Text("B")
    ensures FormatProduct(p).largeImage == Text("B")
  {
  }

  /** Options that cannot supply the colour, placed in front, leave the colour unchanged. */
  lemma {:induction false} ColourSkipsPrefix(skipped: seq<ProductOption>, options: seq<ProductOption>)
    requires forall j :: 0 <= j < |skipped| ==> !IsColourOption(skipped[j])
    ensures Colour(skipped + options) == Colour(options)
  {
    var all := skipped + options;
    var none := forall j :: 0 <= j < |options| ==> !IsColourOption(options[j]);
    if none {
      assert forall j :: 0 <= j < |all| ==> !IsColourOption(all[j]) by {
        forall j | 0 <= j < |all| ensures !IsColourOption(all[j]) {
          if j >= |skipped| {
            assert all[j] == options[j - |skipped|];
          }
        }
      }
    } else {
      var k := FindColourOption(options).value;
      assert all[|skipped| + k] == options[k];
      assert IsFirstColourOption(all, |skipped| + k) by {
        forall j | 0 <= j < |skipped| + k ensures !IsColourOption(all[j]) {
          if j >= |skipped| {
            assert all[j] == options[j - |skipped|];
          }
        }
      }
    }
  }

  /** Once an option supplies the colour, the options after it are never consulted. */
  lemma ColourIgnoresSuffix(options: seq<ProductOption>, rest: seq<ProductOption>)
    requires exists j :: 0 <= j < |options| && IsColourOption(options[j])
    ensures Colour(options + rest) == Colour(options)
  {
    var k := FindColourOption(options).value;
    var all := options + rest;
    assert all[k] == options[k];
    assert IsFirstColourOption(all, k) by {
      forall j | 0 <= j < k ensures !IsColourOption(all[j]) {
        assert all[j] == options[j];
      }
    }
  }

  /** The option-name match ignores ASCII case. */
  lemma ColourNameIgnoresCase(name: string)
    ensures IsColourName(Ascii.Lower(name)) <==> IsColourName(name)
  {
  }

  /** A "Color" option with no values is skipped in favour of a later "COLOUR" option that has one. */
  lemma ColourEmptyOptionSkipped()
    ensures Colour([ProductOption(Some("Color"), []), ProductOption(Some("COLOUR"), ["Red", "Blue"])]) == "Red"
  {
  }

  /** An active product with no stock on hand is for sale but not in stock. */
  lemma ActiveSoldOutProduct(p: Product)
    requires WellFormed(p)
    requires p.status == Some("active")
    requires |p.variants| > 0 && p.variants[0].inventoryQuantity == Some(0)
    ensures FormatProduct(p).isForSale == Text("1")
    ensures FormatProduct(p).inStock == Text("0")
  {
  }

  /**
   * The row's four image columns: the thumbnail from the legacy image only; the
   * main and alternate images as `ImageUrl` and `AlternateImage` choose them;
   * the large image by area, the first of equal maxima.
   */
  lemma RowImages(p: Product)
    requires WellFormed(p)
    ensures FormatProduct(p).merchantThumb == Text(if p.image.Some? then p.image.value.src.value else "")
    ensures FormatProduct(p).imageUrl == Text(ImageUrl(p))
    ensures FormatProduct(p).alternateImage == Text(AlternateImage(p))
    ensures |p.images| == 0 ==> FormatProduct(p).largeImage == Text("")
    ensures forall k: nat :: IsFirstMax(p.images, k) ==> FormatProduct(p).largeImage == Text(p.images[k].src.GetOr(""))
  {
  }

  /** The row's colour column: the first value of the first qualifying option, else empty. */
  lemma RowColour(p: Product)
    requires WellFormed(p)
    ensures (forall j :: 0 <= j < |p.options| ==> !IsColourOption(p.options[j])) ==> FormatProduct(p).colour == Text("")
    ensures forall k: nat :: IsFirstColourOption(p.options, k) ==> FormatProduct(p).colour == Text(p.options[k].values[0])
  {
  }

  /** Only the first variant matters: variants appended after it change nothing in the row. */
  lemma LaterVariantsIgnored(p: Product, more: seq<Variant>)
    requires WellFormed(p)
    requires |p.variants| > 0
    ensures FormatProduct(p.(variants := p.variants + more)) == FormatProduct(p)
  {
    var q := p.(variants := p.variants + more);
    assert q.variants[0] == p.variants[0];
    assert FirstVariant(q) == FirstVariant(p);
  }

  /** The feed: one row per product, in input order; no product is dropped. */
  method FormatForAwin(products: seq<Product>) returns (rows: seq<AwinRow>)
    requires forall i :: 0 <= i < |products| ==> WellFormed(products[i])
    ensures |rows| == |products|
    ensures forall i :: 0 <= i < |products| ==> rows[i] == FormatProduct(products[i])
  {
    rows := [];
    var i := 0;
    while i < |products|
      invariant i <= |products|
      invariant |rows| == i
      invariant forall j :: 0 <= j < i ==> rows[j] == FormatProduct(products[j])
    {
      rows := rows + [FormatProduct(products[i])];
      i := i + 1;
    }
  }
}

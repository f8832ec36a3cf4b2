# Shopify to AWIN product feed: a verified model of the formatter

The script reads a page of products from a Shopify store. It turns each product into one row of an
AWIN affiliate feed and writes the rows as CSV. This project models the formatter,
`format_for_awin`, and the 49-column `AWIN_HEADERS` schema it fills. It then proves which value the
row holds under each of the 49 column names: the copied product fields, the links, categories and
constants, the first variant's offer fields, the two flags, the chosen images, the colour, and the
empty placeholders.

Modules:

- `Wrappers`: the `Option` type. `None` is a key missing from the record, and `GetOr` is `dict.get(key, default)`.
- `Shopify`: the raw product record, with its variants, images and options. It also holds
  `NoVariant`, the `{}` the formatter uses when a product has no variants, and `Area`, an image's
  width times height with a missing side counting as 0. `WellFormed` names the records the
  formatter can process without raising.
- `Ascii`: ASCII lower-casing, used for the case-insensitive match on option names.
- `AwinSchema`: the column list, the feed row, and the row seen as the formatter's dictionary. That
  dictionary is an ordered list of (key, value) entries, because Python dicts keep insertion order.
  The keys of the dictionary literal are kept as a list separate from the header list. A lemma
  proves the two lists are equal.
- `AwinFeed`: the formatter itself. It picks the primary variant, resolves the three images, finds
  the colour option, computes the in-stock and for-sale flags, builds the row, and loops over the
  products.
- `AwinColumns`: the formatted row looked up by column name, for all 49 names.

The formatter filters nothing and has no category table: both category columns copy `product_type`
raw. It copies `vendor` and `body_html` raw, with no brand fallback and no HTML stripping. It takes
`product_id` from `id` and puts the SKU, untrimmed, in `mpn`. It leaves `language` empty, and it
fills 49 columns.

## Model

| member | source | states |
|---|---|---|
| `AwinSchema.RowKeysAreHeaders` | shopify_awin_feed.py:17-133 | The keys of the row dictionary at lines 84-132, in the order the literal writes them, are exactly the 49 names of `AWIN_HEADERS` (lines 17-24) in header order |
| `AwinSchema.Entries` | shopify_awin_feed.py:83-133 | Every row, seen as a dictionary, has one entry per column; the i-th key is the i-th header and its value is the row's field for that column |
| `AwinSchema.EveryHeaderPresent` | shopify_awin_feed.py:83-133 | A key can be looked up in a row if and only if it is one of the feed's headers, so no header is missing and no other key is present; the value found under a header is the row's field for that column |
| `AwinSchema.ProductColumns` | shopify_awin_feed.py:84-133 | The names deep_link, basket_link, merchant_category, product_type, currency and condition select those columns of the row |
| `AwinSchema.OfferColumns` | shopify_awin_feed.py:84-133 | The names price, upc, mpn, web_offer, stock_quantity, in_stock and is_for_sale select those columns of the row |
| `AwinSchema.MediaColumns` | shopify_awin_feed.py:84-133 | The names merchant_thumb, image_url, alternate_image, large_image and colour select those columns of the row |
| `AwinSchema.IdentityColumns` | shopify_awin_feed.py:84-133 | The names product_id, brand_name, product_name, description, valid_from, last_updated and keywords select those columns of the row |
| `AwinSchema.PlaceholderColumns` | shopify_awin_feed.py:84-133 | In a row whose 24 placeholder columns are empty, each of the 24 placeholder names (ean, isbn, model_number, …, rating) reads as empty |
| `Shopify.Area` | shopify_awin_feed.py:75 | An image's area is its width times its height, and 0 when either side is missing |
| `AwinFeed.FirstVariant` | shopify_awin_feed.py:68 | The authoritative variant is `variants[0]`; with no variants it is the empty mapping, so every variant field reads as absent |
| `AwinFeed.LaterVariantsIgnored` | shopify_awin_feed.py:68 | Appending variants after the first one leaves the whole row unchanged |
| `AwinFeed.ImageUrl` | shopify_awin_feed.py:70 | The main image is the first listed image's source; with no listed images it is the legacy image's source, else `''` |
| `AwinFeed.AlternateImage` | shopify_awin_feed.py:71 | The alternate image is the second listed image's source, and `''` when fewer than two images are listed |
| `AwinFeed.MaxByAreaFrom` | shopify_awin_feed.py:75 | The left-to-right maximum scan that replaces its current best only on a strictly larger area ends at an image of largest area with no earlier image of that area |
| `AwinFeed.LargestImageIndex` | shopify_awin_feed.py:75 | `max` by width times height over a non-empty image list picks the first image of largest area |
| `AwinFeed.FirstMaxUnique` | shopify_awin_feed.py:75 | At most one index is the first of largest area, so the tie-break fixes the choice |
| `AwinFeed.LargeImage` | shopify_awin_feed.py:73-76 | The large image is the source of the first image of largest area, `''` if that image has no source, and `''` when there are no images |
| `AwinFeed.EarlierTieWins` | shopify_awin_feed.py:75 | When two images share the largest area, the earlier one is chosen and the later one never is |
| `AwinFeed.ThreeImagesExample` | shopify_awin_feed.py:70-76 | For images A 100x100, B 300x50 and C 10x10, image_url is A, and alternate_image and large_image are both B |
| `AwinFeed.FindColourOption` | shopify_awin_feed.py:79-82 | The search returns the first option named color or colour in any case that has a value, and returns nothing exactly when no option qualifies |
| `AwinFeed.Colour` | shopify_awin_feed.py:78-82 | The colour is the first value of the first qualifying option, and `''` when none qualifies |
| `AwinFeed.ColourSkipsPrefix` | shopify_awin_feed.py:79-82 | Non-qualifying options placed in front, including colour options without values, do not change the colour |
| `AwinFeed.ColourIgnoresSuffix` | shopify_awin_feed.py:79-82 | Once some option qualifies, options appended after the list are never consulted |
| `AwinFeed.ColourNameIgnoresCase` | shopify_awin_feed.py:80 | Whether an option name matches does not change when the name is lower-cased first |
| `AwinFeed.ColourEmptyOptionSkipped` | shopify_awin_feed.py:80-81 | A `Color` option with no values is skipped, and a later `COLOUR` option with values Red and Blue gives Red |
| `AwinFeed.ActiveSoldOutProduct` | shopify_awin_feed.py:108-110 | An active product whose first variant has zero stock is for sale but not in stock |
| `AwinFeed.InStock` | shopify_awin_feed.py:108 | in_stock is `'1'` exactly when the variant's inventory quantity is present and positive, and `'0'` otherwise |
| `AwinFeed.IsForSale` | shopify_awin_feed.py:110 | is_for_sale is `'1'` exactly when the status is present and equal to `active`, and `'0'` otherwise |
| `AwinFeed.FormatProduct` | shopify_awin_feed.py:83-133 | These fields are copied: id, title, description, vendor, tags, published and updated times. deep_link and basket_link are the same product-page link. merchant_category and product_type are the same raw type. Currency is USD, condition is new, and the placeholder columns are empty. Price, upc, mpn, web_offer and stock come from the first variant, or are `''` with in_stock `'0'` when there is none. in_stock is `'1'` exactly when the stock quantity is a positive integer. is_for_sale is `'1'` exactly when the status is `active` |
| `AwinFeed.RowImages` | shopify_awin_feed.py:70-131 | In a row, merchant_thumb comes from the legacy image only. image_url and alternate_image are the main and alternate images. large_image is the first image of largest area, or `''` with no images |
| `AwinFeed.RowColour` | shopify_awin_feed.py:78-118 | In a row, colour is the first value of the first qualifying option, and `''` when none qualifies |
| `AwinColumns.LinkAndCategoryColumns` | shopify_awin_feed.py:83-133 | Looked up by name, deep_link and basket_link both hold the product-page link with the handle, merchant_category and product_type both hold the raw product type, currency is USD and condition is new |
| `AwinColumns.VariantColumns` | shopify_awin_feed.py:83-133 | Looked up by name, price, upc, mpn, web_offer and stock_quantity hold the first variant's price, barcode, SKU, compare-at price and inventory quantity, and in_stock and is_for_sale hold the two flags |
| `AwinColumns.ImageAndColourColumns` | shopify_awin_feed.py:83-133 | Looked up by name, merchant_thumb holds the legacy image, image_url and alternate_image the main and alternate images, large_image the largest image, and colour the chosen colour |
| `AwinColumns.CopiedColumns` | shopify_awin_feed.py:83-133 | Looked up by name, product_id holds the product id, and brand_name, product_name, description, valid_from, last_updated and keywords hold the vendor, title, body HTML, publication time, update time and tags, each `''` when absent |
| `AwinColumns.EmptyColumns` | shopify_awin_feed.py:83-133 | Looked up by name, each of the 24 placeholder columns of a formatted row is `''` |
| `AwinFeed.FormatForAwin` | shopify_awin_feed.py:65-135 | One row per product in input order, with nothing filtered; row i is the formatted product i |
| `Ascii.LowerChar` | shopify_awin_feed.py:80 | An ASCII capital moves to its lower-case letter, every other character is kept, and the result is never a capital |
| `Ascii.Lower` | shopify_awin_feed.py:80 | Lower-casing keeps the length and folds each character on its own |
| `Ascii.LowerIdempotent` | shopify_awin_feed.py:80 | Lower-casing twice is the same as lower-casing once |

## Left out

- `fetch_shopify_products` (lines 39-47) is not modelled: it is an HTTP request to the store's API.
- The credential check and `exit(1)` (lines 11-13, 27-33) are not modelled: they are environment and process handling.
- `write_shopify_csv`, `write_csv` and `main` (lines 50-63, 137-150) are not modelled: they are file I/O and orchestration.
  How `csv.DictWriter` renders cells is library behaviour. That covers integers as decimal text and
  `None` as an empty field. The model keeps `product_id` and `stock_quantity` as integer cells (`Cell.Int`).
- JSON `null` values are not modelled. A raw field is either absent (`None`) or holds a value of its
  type. In the code a `null` string field is copied as `None`, and a `null` handle would be formatted
  as the text `None` in the links. A `null` stock quantity makes `> 0` raise.
- A legacy `image` that is an empty mapping is modelled as absent. The code treats `{}` as falsy,
  which gives the same result.
- Crashing inputs are excluded by the precondition `WellFormed`, not modelled as errors. These are a first
  or second image without `src`, or a present legacy image without `src`. Type errors, such as a non-numeric
  width or stock quantity, are excluded by the field types.
- `Ascii.Lower`: lower-cases ASCII letters only, not full Unicode. For the comparison with `color` and
  `colour` this gives the same answer. Python's `lower` maps only two non-ASCII characters into ASCII
  letters: the Kelvin sign becomes `k`, and the dotted capital I becomes `i` followed by a combining
  dot. Neither `k` nor `i` appears in those two words.
- The header list has 49 names. That they are pairwise distinct is not proved.

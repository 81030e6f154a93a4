/** The storefront constants (src/lib/constants.ts) and their agreement with the tables the
    Convex functions hard-code. */
module Constants {
  import opened Store
  import Printful
  import Products

  /** The sizes a shirt is sold in. */
  const SHIRT_SIZES: seq<string> := ["XS", "S", "M", "L", "XL", "2XL", "3XL"]

  /** The price of a shirt, in cents. */
  const DEFAULT_SHIRT_PRICE: int := 2999

  /** The Printful variant of each size of the Bella+Canvas 3001 in black. */
  const PRINTFUL_VARIANT_IDS: map<string, int> :=
    map["XS" := 9527, "S" := 4016, "M" := 4017, "L" := 4018, "XL" := 4019, "2XL" := 4020,
        "3XL" := 5295]

  /** Every size on sale has a variant, and the variant table has no other size. */
  lemma EverySizeHasVariant()
    ensures forall size | size in SHIRT_SIZES :: size in PRINTFUL_VARIANT_IDS
    ensures forall size | size in PRINTFUL_VARIANT_IDS :: size in SHIRT_SIZES
  {
  }

  /** The client's table and the fulfilment code's table are the same, entry for entry. */
  lemma VariantTablesAgree()
    ensures PRINTFUL_VARIANT_IDS == Printful.VARIANT_IDS
  {
  }

  /** No two sizes share a variant, and no variant id is 0 (which the lookup would read as
      missing). */
  lemma VariantIdsDistinct()
    ensures forall a, b | a in PRINTFUL_VARIANT_IDS && b in PRINTFUL_VARIANT_IDS ::
              PRINTFUL_VARIANT_IDS[a] == PRINTFUL_VARIANT_IDS[b] ==> a == b
    ensures forall size | size in PRINTFUL_VARIANT_IDS :: PRINTFUL_VARIANT_IDS[size] != 0
  {
  }

  /** A shirt made from a post is offered in exactly these sizes at this price. */
  lemma PostShirtUsesConstants()
    ensures Products.POST_SHIRT_SIZES == SHIRT_SIZES
    ensures Products.POST_SHIRT_PRICE == DEFAULT_SHIRT_PRICE
  {
  }

  /** An order whose lines are all in sizes on sale and whose products all exist gets its draft
      built: the unknown-size failure cannot happen for these sizes. */
  lemma StandardSizesArePrintable(items: seq<OrderItem>, products: map<Id, Product>, files: map<Id, string>)
    requires forall i | 0 <= i < |items| :: items[i].size in SHIRT_SIZES && items[i].productId in products
    ensures Printful.LineItems(items, products, files).Ok?
    ensures |Printful.LineItems(items, products, files).value| == |items|
  {
    EverySizeHasVariant();
    VariantTablesAgree();
  }
}

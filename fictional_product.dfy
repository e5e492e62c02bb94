/**
  The fictional-product agent: builds the fixed competitor record ("Product
  B") that the comparison page sets against the primary product. The
  primary product handed to the agent is stored but never read.
 */
module FictionalProduct {
  import opened Wrappers
  import opened ProductModel

  const RADIANCE: string := "Radiance 12x Brightening Serum"

  /** The record the literal dictionary describes. */
  const RADIANCE_SERUM: Product := Product(
    RADIANCE,
    "12% Niacinamide",
    ["Dry", "Normal"],
    ["Niacinamide", "Ceramides"],
    ["Texture smoothing", "Minimizes pores", "Hydration"],
    "Apply a pea-sized amount to clean skin twice daily (morning and night).",
    "Slight redness for first-time users.",
    "₹999")

  /** The literal field dictionary the agent validates (without `comparison_name`). */
  function FictionalFields(): map<Field, FieldValue>
  {
    FieldMap(RADIANCE_SERUM)
  }

  /**
    `run`: validates the literal dictionary into a comparison record. The
    validation always succeeds, so the agent never raises; the record's
    lists are long enough for every index the page assembler takes.
   */
  function Run(primary: Product): (r: Result<ComparisonProduct, seq<Field>>)
    ensures r == Ok(ComparisonProduct(RADIANCE_SERUM, RADIANCE))
    ensures r.value.product.productName == RADIANCE && r.value.comparisonName == RADIANCE
    ensures r.value.product.concentration == "12% Niacinamide"
    ensures r.value.product.skinType == ["Dry", "Normal"]
    ensures r.value.product.keyIngredients == ["Niacinamide", "Ceramides"]
    ensures |r.value.product.benefits| == 3 && r.value.product.benefits[0] == "Texture smoothing"
    ensures r.value.product.price == "₹999"
  {
    ValidateFieldMap(RADIANCE_SERUM);
    match Validate(FictionalFields())
    case Ok(p) => Ok(ComparisonProduct(p, RADIANCE))
    case Err(missing) => Err(missing)
  }

  /** The record does not depend on the primary product the agent was given. */
  lemma IgnoresPrimary(a: Product, b: Product)
    ensures Run(a) == Run(b)
  {
  }
}

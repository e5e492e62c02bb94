/**
  The product records the agents pass along: the primary product read from
  the input text and the fixed comparison product. Validation is the
  "required fields present, with the right shape" check the record's
  constructor performs.
 */
module ProductModel {
  import opened Wrappers

  datatype Product = Product(
    productName: string,
    concentration: string,
    skinType: seq<string>,
    keyIngredients: seq<string>,
    benefits: seq<string>,
    howToUse: string,
    sideEffects: string,
    price: string)

  /** The comparison record: every product field plus `comparison_name`. */
  datatype ComparisonProduct = ComparisonProduct(product: Product, comparisonName: string)

  /** A field value before validation (and in a dumped record): a string or a list of strings. */
  datatype FieldValue = Scalar(text: string) | Items(items: seq<string>)

  /** The record's eight fields, in declaration order. */
  datatype Field = ProductName | Concentration | SkinType | KeyIngredients | Benefits | HowToUse | SideEffects | Price

  /** A field's name as a dictionary key. */
  function Name(f: Field): string
  {
    match f
    case ProductName => "product_name"
    case Concentration => "concentration"
    case SkinType => "skin_type"
    case KeyIngredients => "key_ingredients"
    case Benefits => "benefits"
    case HowToUse => "how_to_use"
    case SideEffects => "side_effects"
    case Price => "price"
  }

  /** The fields in declaration order. */
  const FIELDS: seq<Field> :=
    [ProductName, Concentration, SkinType, KeyIngredients, Benefits, HowToUse, SideEffects, Price]

  /** Every field is one of the eight, and is listed. */
  lemma FieldsListed()
    ensures forall f: Field :: f in FIELDS
  {
    forall f: Field
      ensures f in FIELDS
    {
      match f
      case ProductName => assert FIELDS[0] == f;
      case Concentration => assert FIELDS[1] == f;
      case SkinType => assert FIELDS[2] == f;
      case KeyIngredients => assert FIELDS[3] == f;
      case Benefits => assert FIELDS[4] == f;
      case HowToUse => assert FIELDS[5] == f;
      case SideEffects => assert FIELDS[6] == f;
      case Price => assert FIELDS[7] == f;
    }
  }

  /** The three fields declared as lists of strings. */
  predicate IsListField(f: Field)
  {
    f == SkinType || f == KeyIngredients || f == Benefits
  }

  /** Field `f` is present in `data` with the shape the record declares for it. */
  predicate Conforms(data: map<Field, FieldValue>, f: Field)
  {
    f in data && (if IsListField(f) then data[f].Items? else data[f].Scalar?)
  }

  /** Every one of the eight fields conforms. */
  predicate AllConform(data: map<Field, FieldValue>)
  {
    && Conforms(data, ProductName) && Conforms(data, Concentration)
    && Conforms(data, SkinType) && Conforms(data, KeyIngredients)
    && Conforms(data, Benefits) && Conforms(data, HowToUse)
    && Conforms(data, SideEffects) && Conforms(data, Price)
  }

  lemma AllConformIff(data: map<Field, FieldValue>)
    ensures AllConform(data) <==> forall f :: Conforms(data, f)
  {
    if AllConform(data) {
      forall f: Field
        ensures Conforms(data, f)
      {
        match f
        case ProductName =>
        case Concentration =>
        case SkinType =>
        case KeyIngredients =>
        case Benefits =>
        case HowToUse =>
        case SideEffects =>
        case Price =>
      }
    }
  }

  /** The fields among `fields` that do not conform, in order. */
  function Missing(data: map<Field, FieldValue>, fields: seq<Field>): (r: seq<Field>)
    ensures forall f :: f in r <==> f in fields && !Conforms(data, f)
    ensures |r| <= |fields|
  {
    if fields == [] then []
    else (if Conforms(data, fields[0]) then [] else [fields[0]]) + Missing(data, fields[1..])
  }

  /**
    Builds the record from a field map: succeeds exactly when all eight
    fields conform, and otherwise reports every field that does not.
   */
  function Validate(data: map<Field, FieldValue>): (r: Result<Product, seq<Field>>)
    ensures r.Ok? <==> forall f :: Conforms(data, f)
    ensures r.Err? ==> r.error != [] && forall f :: f in r.error <==> !Conforms(data, f)
  {
    AllConformIff(data);
    if !AllConform(data) then
      var missing := Missing(data, FIELDS);
      FieldsListed();
      assert missing != [] && missing[0] in missing;
      Err(missing)
    else
      Ok(Product(
        data[ProductName].text,
        data[Concentration].text,
        data[SkinType].items,
        data[KeyIngredients].items,
        data[Benefits].items,
        data[HowToUse].text,
        data[SideEffects].text,
        data[Price].text))
  }

  /** A record's `model_dump()`: its fields in declaration order. */
  function Dump(p: Product): (r: seq<(string, FieldValue)>)
  {
    [("product_name", Scalar(p.productName)),
     ("concentration", Scalar(p.concentration)),
     ("skin_type", Items(p.skinType)),
     ("key_ingredients", Items(p.keyIngredients)),
     ("benefits", Items(p.benefits)),
     ("how_to_use", Scalar(p.howToUse)),
     ("side_effects", Scalar(p.sideEffects)),
     ("price", Scalar(p.price))]
  }

  /** The comparison record's `model_dump()`: the product fields, then `comparison_name`. */
  function DumpComparison(c: ComparisonProduct): (r: seq<(string, FieldValue)>)
  {
    Dump(c.product) + [("comparison_name", Scalar(c.comparisonName))]
  }

  /** The dump lists each field once, in declaration order, under its name and with its value. */
  lemma DumpListsFields(p: Product)
    ensures |Dump(p)| == |FIELDS|
    ensures forall k :: 0 <= k < |FIELDS| ==> Dump(p)[k] == (Name(FIELDS[k]), FieldMap(p)[FIELDS[k]])
  {
  }

  /** The record as the field map its constructor is given. */
  function FieldMap(p: Product): map<Field, FieldValue>
  {
    map[
      ProductName := Scalar(p.productName),
      Concentration := Scalar(p.concentration),
      SkinType := Items(p.skinType),
      KeyIngredients := Items(p.keyIngredients),
      Benefits := Items(p.benefits),
      HowToUse := Scalar(p.howToUse),
      SideEffects := Scalar(p.sideEffects),
      Price := Scalar(p.price)]
  }

  /** Validating a record's own field map gives the record back. */
  lemma ValidateFieldMap(p: Product)
    ensures Validate(FieldMap(p)) == Ok(p)
  {
    assert AllConform(FieldMap(p));
  }
}

/**
  The content rules: the product summary sentence, the fixed list of sixteen
  categorised user questions, and the six answered questions of the FAQ. The
  questions and answers are fixed texts with product fields filled in;
  indexing an empty list raises `IndexError`, modelled as an error result.
 */
module ContentLogic {
  import opened Wrappers
  import opened Text
  import opened ProductModel

  datatype Category = Informational | Usage | Safety | Purchase

  /** A category as its string value. */
  function CategoryName(c: Category): string
  {
    match c
    case Informational => "Informational"
    case Usage => "Usage"
    case Safety => "Safety"
    case Purchase => "Purchase"
  }

  datatype CategorizedQuestion = CategorizedQuestion(category: Category, question: string)

  datatype QuestionAnswer = QuestionAnswer(question: string, answer: string)

  /** The lists a content rule indexes into. */
  datatype ListName = QuestionList | BenefitList | IngredientList

  /** The `IndexError` raised by the first out-of-range subscript. */
  datatype IndexError = IndexError(list: ListName, index: nat)

  // ----- Summary -----

  /** The benefit the summary highlights: the first one, lower-cased, or "radiance" when there is none. */
  function TopBenefit(p: Product): string
  {
    Lower(if |p.benefits| > 0 then p.benefits[0] else DEFAULT_BENEFIT)
  }

  const SUMMARY_OPEN: string := "Introducing the **"
  const SUMMARY_AFTER_NAME: string := "**, a powerful solution featuring **"
  const SUMMARY_AFTER_CONCENTRATION: string := "** of pure active ingredient. Specifically formulated for "
  const SUMMARY_AFTER_SKIN: string := " skin types, this serum is expertly designed to deliver rapid results, focusing on **"
  const SUMMARY_CLOSE: string := "**."

  /** `generate_descriptive_summary_block`. */
  function Summary(p: Product): string
  {
    SUMMARY_OPEN + p.productName
      + (SUMMARY_AFTER_NAME + p.concentration
      + (SUMMARY_AFTER_CONCENTRATION + Join(p.skinType, ", ")
      + (SUMMARY_AFTER_SKIN + TopBenefit(p) + SUMMARY_CLOSE)))
  }

  /** The summary names the product, its concentration and its skin types (", "-joined) verbatim. */
  lemma SummaryMentions(p: Product)
    ensures p.productName != [] ==> Contains(Summary(p), p.productName)
    ensures p.concentration != [] ==> Contains(Summary(p), p.concentration)
    ensures Join(p.skinType, ", ") != [] ==> Contains(Summary(p), Join(p.skinType, ", "))
  {
    var skin := Join(p.skinType, ", ");
    var tail := SUMMARY_AFTER_SKIN + TopBenefit(p) + SUMMARY_CLOSE;
    var afterSkin := SUMMARY_AFTER_CONCENTRATION + skin + tail;
    var afterConcentration := SUMMARY_AFTER_NAME + p.concentration + afterSkin;
    if p.productName != [] {
      ContainsMiddle(SUMMARY_OPEN, p.productName, afterConcentration);
    }
    var beforeConcentration := SUMMARY_OPEN + p.productName + SUMMARY_AFTER_NAME;
    Reassociate(SUMMARY_OPEN + p.productName, SUMMARY_AFTER_NAME, p.concentration, afterSkin);
    if p.concentration != [] {
      ContainsMiddle(beforeConcentration, p.concentration, afterSkin);
    }
    var beforeSkin := beforeConcentration + p.concentration + SUMMARY_AFTER_CONCENTRATION;
    Reassociate(beforeConcentration + p.concentration, SUMMARY_AFTER_CONCENTRATION, skin, tail);
    if skin != [] {
      ContainsMiddle(beforeSkin, skin, tail);
    }
  }

  const DEFAULT_BENEFIT: string := "radiance"

  /** "radiance" has no upper-case letter, so lower-casing leaves it as it is. */
  lemma DefaultBenefitLower()
    ensures Lower(DEFAULT_BENEFIT) == DEFAULT_BENEFIT
  {
    var low := Lower(DEFAULT_BENEFIT);
    forall i | 0 <= i < |DEFAULT_BENEFIT|
      ensures low[i] == DEFAULT_BENEFIT[i]
    {
      assert !IsUpper(DEFAULT_BENEFIT[i]);
    }
  }

  /** The summary ends by highlighting the top benefit: the first benefit lower-cased, or "radiance". */
  lemma SummaryHighlightsTopBenefit(p: Product)
    ensures var s := Summary(p);
      var ending := SUMMARY_AFTER_SKIN + TopBenefit(p) + SUMMARY_CLOSE;
      |ending| <= |s| && s[|s| - |ending|..] == ending
    ensures |p.benefits| > 0 ==> TopBenefit(p) == Lower(p.benefits[0])
    ensures |p.benefits| == 0 ==> TopBenefit(p) == DEFAULT_BENEFIT
  {
    var ending := SUMMARY_AFTER_SKIN + TopBenefit(p) + SUMMARY_CLOSE;
    var front := SUMMARY_OPEN + p.productName + SUMMARY_AFTER_NAME + p.concentration
      + SUMMARY_AFTER_CONCENTRATION + Join(p.skinType, ", ");
    EndsWith(front, ending);
    if |p.benefits| == 0 {
      DefaultBenefitLower();
    }
  }

  /** A concatenation ends with its right operand. */
  lemma EndsWith(front: string, ending: string)
    ensures var s := front + ending; s[|s| - |ending|..] == ending
  {
  }

  /** Regrouping a concatenation: `a + (b + c + d)` is `(a + b) + c + d`. */
  lemma Reassociate(a: string, b: string, c: string, d: string)
    ensures a + (b + c + d) == a + b + c + d
  {
  }

  // ----- Questions -----

  /** The category of the question at position `i`: five informational, five on usage, four on safety, two on purchase. */
  function CategoryAt(i: nat): Category
  {
    if i < 5 then Informational
    else if i < 10 then Usage
    else if i < 14 then Safety
    else Purchase
  }

  const Q_BENEFITS_OPEN: string := "What are the main benefits of "
  const Q_CONCENTRATION_OPEN: string := "How does the "
  const Q_CONCENTRATION_CLOSE: string := " concentration compare to others?"
  const Q_INGREDIENT_OPEN: string := "Is "
  const Q_INGREDIENT_CLOSE: string := " the main active ingredient?"
  const Q_HYALURONIC: string := "What is the primary function of Hyaluronic Acid in this serum?"
  const Q_SENSITIVE: string := "Is this product suitable for sensitive skin?"
  const Q_TWICE: string := "Can I apply this serum twice a day?"
  const Q_ROUTINE_OPEN: string := "When in my routine should I apply the "
  const Q_DROPS: string := "How many drops should I use for optimal results?"
  const Q_MAKEUP: string := "Can I use this serum under makeup?"
  const Q_WAIT: string := "Should I wait after applying it before using moisturizer?"
  const Q_TINGLING: string := "What does 'mild tingling' mean for sensitive skin?"
  const Q_PREGNANT: string := "Is this product safe for pregnant or nursing individuals?"
  const Q_INTERACTIONS: string := "Are there any known drug interactions with this serum?"
  const Q_SEVERE: string := "What should I do if the tingling is severe?"
  const Q_PRICE_OPEN: string := "Is the "
  const Q_PRICE_CLOSE: string := " price point reflective of the quality?"
  const Q_WHERE: string := "Where can I buy authentic GlowBoost Vitamin C Serum?"
  const QUESTION_MARK: string := "?"

  /**
    `generate_categorized_questions`: sixteen questions in a fixed order,
    five of them filled in from the product. Only `key_ingredients[0]` can
    be out of range.
   */
  function CategorizedQuestions(p: Product): (r: Result<seq<CategorizedQuestion>, IndexError>)
    ensures r.Ok? <==> |p.keyIngredients| >= 1
    ensures r.Err? ==> r.error == IndexError(IngredientList, 0)
    ensures r.Ok? ==> |r.value| == 16 && forall i :: 0 <= i < 16 ==> r.value[i].category == CategoryAt(i)
  {
    if |p.keyIngredients| == 0 then Err(IndexError(IngredientList, 0))
    else Ok([
      CategorizedQuestion(Informational, Q_BENEFITS_OPEN + p.productName + QUESTION_MARK),
      CategorizedQuestion(Informational, Q_CONCENTRATION_OPEN + p.concentration + Q_CONCENTRATION_CLOSE),
      CategorizedQuestion(Informational, Q_INGREDIENT_OPEN + p.keyIngredients[0] + Q_INGREDIENT_CLOSE),
      CategorizedQuestion(Informational, Q_HYALURONIC),
      CategorizedQuestion(Informational, Q_SENSITIVE),
      CategorizedQuestion(Usage, Q_TWICE),
      CategorizedQuestion(Usage, Q_ROUTINE_OPEN + p.productName + QUESTION_MARK),
      CategorizedQuestion(Usage, Q_DROPS),
      CategorizedQuestion(Usage, Q_MAKEUP),
      CategorizedQuestion(Usage, Q_WAIT),
      CategorizedQuestion(Safety, Q_TINGLING),
      CategorizedQuestion(Safety, Q_PREGNANT),
      CategorizedQuestion(Safety, Q_INTERACTIONS),
      CategorizedQuestion(Safety, Q_SEVERE),
      CategorizedQuestion(Purchase, Q_PRICE_OPEN + p.price + Q_PRICE_CLOSE),
      CategorizedQuestion(Purchase, Q_WHERE)])
  }

  /** Questions 0, 1, 2, 6 and 14 quote the name, the concentration, the first key ingredient, the name and the price. */
  lemma QuestionsInterpolate(p: Product)
    requires |p.keyIngredients| >= 1
    ensures var qs := CategorizedQuestions(p).value;
      && (p.productName != [] ==> Contains(qs[0].question, p.productName) && Contains(qs[6].question, p.productName))
      && (p.concentration != [] ==> Contains(qs[1].question, p.concentration))
      && (p.keyIngredients[0] != [] ==> Contains(qs[2].question, p.keyIngredients[0]))
      && (p.price != [] ==> Contains(qs[14].question, p.price))
  {
    if p.productName != [] {
      ContainsMiddle(Q_BENEFITS_OPEN, p.productName, QUESTION_MARK);
      ContainsMiddle(Q_ROUTINE_OPEN, p.productName, QUESTION_MARK);
    }
    if p.concentration != [] {
      ContainsMiddle(Q_CONCENTRATION_OPEN, p.concentration, Q_CONCENTRATION_CLOSE);
    }
    if p.keyIngredients[0] != [] {
      ContainsMiddle(Q_INGREDIENT_OPEN, p.keyIngredients[0], Q_INGREDIENT_CLOSE);
    }
    if p.price != [] {
      ContainsMiddle(Q_PRICE_OPEN, p.price, Q_PRICE_CLOSE);
    }
  }

  // ----- FAQ answers -----

  /** The question positions the six answers are written for, in order. */
  const FAQ_INDICES: seq<nat> := [0, 1, 2, 5, 12, 6]

  const A_BENEFITS_OPEN: string := "The main benefits include **"
  const A_BENEFITS_CLOSE: string := "** and helping to **fade dark spots**, resulting in a more even complexion."
  const A_CONCENTRATION_OPEN: string := "At **"
  const A_CONCENTRATION_CLOSE: string :=
    "**, it delivers a potent dose optimized for efficacy while minimizing irritation, making it ideal for regular use."
  const A_INGREDIENT_OPEN: string := "Yes, **"
  const A_INGREDIENT_MIDDLE: string := "** is the primary active for brightening. It is complemented by **"
  const A_INGREDIENT_CLOSE: string := "** for hydration."
  const A_USE_OPEN: string := "The recommended use is **"
  const A_USE_CLOSE: string := "**. Using it at night is not generally recommended due to sun sensitivity."
  const A_SAFETY: string :=
    "Please consult your doctor before using the serum if you are pregnant or nursing, as with any high-concentration active ingredient product."
  const A_ROUTINE: string := "Apply it after cleansing and toning, but before your moisturizing step."

  /** The length of the named list. */
  function ListLength(l: ListName, questions: seq<CategorizedQuestion>, p: Product): nat
  {
    match l
    case QuestionList => |questions|
    case BenefitList => |p.benefits|
    case IngredientList => |p.keyIngredients|
  }

  /**
    `generate_faq_answers`: six answered questions, taken from positions
    0, 1, 2, 5, 12 and 6 of the question list. The subscripts are evaluated
    in source order, and the first one out of range is the error.
   */
  function FaqAnswers(questions: seq<CategorizedQuestion>, p: Product): (r: Result<seq<QuestionAnswer>, IndexError>)
    ensures r.Ok? <==> |questions| >= 13 && |p.benefits| >= 1 && |p.keyIngredients| >= 2
    ensures r.Ok? ==> |r.value| == 6 && forall k :: 0 <= k < 6 ==> r.value[k].question == questions[FAQ_INDICES[k]].question
    ensures r.Err? ==> r.error.index >= ListLength(r.error.list, questions, p)
  {
    if |questions| == 0 then Err(IndexError(QuestionList, 0))
    else if |p.benefits| == 0 then Err(IndexError(BenefitList, 0))
    else if |questions| < 3 then Err(IndexError(QuestionList, |questions|))
    else if |p.keyIngredients| == 0 then Err(IndexError(IngredientList, 0))
    else if |p.keyIngredients| == 1 then Err(IndexError(IngredientList, 1))
    else if |questions| < 6 then Err(IndexError(QuestionList, 5))
    else if |questions| < 13 then Err(IndexError(QuestionList, 12))
    else Ok([
      QuestionAnswer(questions[0].question, A_BENEFITS_OPEN + p.benefits[0] + A_BENEFITS_CLOSE),
      QuestionAnswer(questions[1].question, A_CONCENTRATION_OPEN + p.concentration + A_CONCENTRATION_CLOSE),
      QuestionAnswer(questions[2].question,
        A_INGREDIENT_OPEN + p.keyIngredients[0] + A_INGREDIENT_MIDDLE + p.keyIngredients[1] + A_INGREDIENT_CLOSE),
      QuestionAnswer(questions[5].question, A_USE_OPEN + p.howToUse + A_USE_CLOSE),
      QuestionAnswer(questions[12].question, A_SAFETY),
      QuestionAnswer(questions[6].question, A_ROUTINE)])
  }

  /** The first four answers quote the first benefit, the concentration, both key ingredients and the usage text. */
  lemma AnswersInterpolate(questions: seq<CategorizedQuestion>, p: Product)
    requires FaqAnswers(questions, p).Ok?
    ensures var qa := FaqAnswers(questions, p).value;
      && (p.benefits[0] != [] ==> Contains(qa[0].answer, p.benefits[0]))
      && (p.concentration != [] ==> Contains(qa[1].answer, p.concentration))
      && (p.keyIngredients[0] != [] ==> Contains(qa[2].answer, p.keyIngredients[0]))
      && (p.keyIngredients[1] != [] ==> Contains(qa[2].answer, p.keyIngredients[1]))
      && (p.howToUse != [] ==> Contains(qa[3].answer, p.howToUse))
  {
    var ki := p.keyIngredients;
    if p.benefits[0] != [] {
      ContainsMiddle(A_BENEFITS_OPEN, p.benefits[0], A_BENEFITS_CLOSE);
    }
    if p.concentration != [] {
      ContainsMiddle(A_CONCENTRATION_OPEN, p.concentration, A_CONCENTRATION_CLOSE);
    }
    if ki[0] != [] {
      Reassociate(A_INGREDIENT_OPEN + ki[0], A_INGREDIENT_MIDDLE, ki[1], A_INGREDIENT_CLOSE);
      ContainsMiddle(A_INGREDIENT_OPEN, ki[0], A_INGREDIENT_MIDDLE + ki[1] + A_INGREDIENT_CLOSE);
    }
    if ki[1] != [] {
      ContainsMiddle(A_INGREDIENT_OPEN + ki[0] + A_INGREDIENT_MIDDLE, ki[1], A_INGREDIENT_CLOSE);
    }
    if p.howToUse != [] {
      ContainsMiddle(A_USE_OPEN, p.howToUse, A_USE_CLOSE);
    }
  }

  /** The last two answers are fixed texts, the same for every product and question list. */
  lemma FixedAnswers(questions: seq<CategorizedQuestion>, p: Product, otherQuestions: seq<CategorizedQuestion>, other: Product)
    requires FaqAnswers(questions, p).Ok? && FaqAnswers(otherQuestions, other).Ok?
    ensures FaqAnswers(questions, p).value[4].answer == FaqAnswers(otherQuestions, other).value[4].answer == A_SAFETY
    ensures FaqAnswers(questions, p).value[5].answer == FaqAnswers(otherQuestions, other).value[5].answer == A_ROUTINE
  {
  }
}

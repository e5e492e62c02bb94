/**
  The content-generator agent: runs the three content rules for the primary
  product and stores their results, one field after another, in a fresh
  content record. The comparison product is kept by the agent but not read.
 */
module ContentGenerator {
  import opened Wrappers
  import opened ProductModel
  import opened ContentLogic

  /** The three generated content blocks, as values. */
  datatype Content = Content(
    productSummaryBlock: string,
    userQuestions: seq<CategorizedQuestion>,
    faqQAPairs: seq<QuestionAnswer>)

  /** The mutable content record the agent fills in. */
  class ContentLogicModel {
    var productSummaryBlock: string
    var userQuestions: seq<CategorizedQuestion>
    var faqQAPairs: seq<QuestionAnswer>

    /** A record with every field at its empty default. */
    constructor ()
      ensures productSummaryBlock == [] && userQuestions == [] && faqQAPairs == []
    {
      productSummaryBlock := [];
      userQuestions := [];
      faqQAPairs := [];
    }

    /** The record's current contents. */
    function Snapshot(): Content
      reads this
    {
      Content(productSummaryBlock, userQuestions, faqQAPairs)
    }
  }

  /** The `IndexError` the content rules raise first: the question list reads the first key ingredient, then the answers read the first benefit and the second key ingredient. */
  function FirstIndexError(p: Product): IndexError
  {
    if |p.keyIngredients| == 0 then IndexError(IngredientList, 0)
    else if |p.benefits| == 0 then IndexError(BenefitList, 0)
    else IndexError(IngredientList, 1)
  }

  /**
    What the agent produces for a product: the summary, the sixteen
    questions, and the answers chosen from those same questions. The first
    failing rule's `IndexError` aborts the whole stage.
   */
  function Generate(p: Product): (r: Result<Content, IndexError>)
    ensures r.Ok? <==> |p.keyIngredients| >= 2 && |p.benefits| >= 1
    ensures r.Err? ==> r.error == FirstIndexError(p)
    ensures r.Ok? ==>
      && r.value.productSummaryBlock == Summary(p)
      && |r.value.userQuestions| == 16
      && |r.value.faqQAPairs| == 6
      && forall k :: 0 <= k < 6 ==> r.value.faqQAPairs[k].question == r.value.userQuestions[FAQ_INDICES[k]].question
  {
    match CategorizedQuestions(p)
    case Err(e) => Err(e)
    case Ok(questions) =>
      match FaqAnswers(questions, p)
      case Err(e) => Err(e)
      case Ok(pairs) => Ok(Content(Summary(p), questions, pairs))
  }

  /** The texts of a question list, in order. */
  function QuestionTexts(questions: seq<CategorizedQuestion>): seq<string>
  {
    seq(|questions|, i requires 0 <= i < |questions| => questions[i].question)
  }

  /** Every published question is one of the generated questions, so the answers never refer to a question the page lacks. */
  lemma PairsAreGeneratedQuestions(p: Product)
    requires Generate(p).Ok?
    ensures var c := Generate(p).value;
      forall pair :: pair in c.faqQAPairs ==> pair.question in QuestionTexts(c.userQuestions)
  {
    PairsChosenFromQuestions(Generate(p).value);
  }

  /** Pairs taken from positions `FAQ_INDICES` of the question list ask questions of that list. */
  lemma PairsChosenFromQuestions(c: Content)
    requires |c.userQuestions| == 16 && |c.faqQAPairs| == 6
    requires forall k :: 0 <= k < 6 ==> c.faqQAPairs[k].question == c.userQuestions[FAQ_INDICES[k]].question
    ensures forall pair :: pair in c.faqQAPairs ==> pair.question in QuestionTexts(c.userQuestions)
  {
    var texts := QuestionTexts(c.userQuestions);
    forall k | 0 <= k < 6
      ensures c.faqQAPairs[k].question in texts
    {
      assert texts[FAQ_INDICES[k]] == c.faqQAPairs[k].question;
    }
  }

  /** The generated questions keep the fixed category order: five informational, five on usage, four on safety, two on purchase. */
  lemma GeneratedCategories(p: Product)
    requires Generate(p).Ok?
    ensures var qs := Generate(p).value.userQuestions;
      forall i :: 0 <= i < |qs| ==> qs[i].category == CategoryAt(i)
  {
    assert Generate(p).value.userQuestions == CategorizedQuestions(p).value;
  }

  /** The agent: holds the primary product and the comparison product it was built with. */
  class ContentGeneratorAgent {
    const productData: Product
    const productBData: ComparisonProduct

    constructor (productData: Product, productBData: ComparisonProduct)
      ensures this.productData == productData && this.productBData == productBData
    {
      this.productData := productData;
      this.productBData := productBData;
    }

    /**
      `run`: creates an empty content record and assigns its summary, its
      questions and its answers in turn. The result depends on the primary
      product alone.
     */
    method Run() returns (r: Result<ContentLogicModel, IndexError>)
      ensures r.Ok? <==> Generate(productData).Ok?
      ensures r.Err? ==> r.error == Generate(productData).error
      ensures r.Ok? ==> fresh(r.value) && r.value.Snapshot() == Generate(productData).value
    {
      var generated := new ContentLogicModel();
      generated.productSummaryBlock := Summary(productData);
      var questions := CategorizedQuestions(productData);
      if questions.Err? {
        return Err(questions.error);
      }
      generated.userQuestions := questions.value;
      var pairs := FaqAnswers(generated.userQuestions, productData);
      if pairs.Err? {
        return Err(pairs.error);
      }
      generated.faqQAPairs := pairs.value;
      return Ok(generated);
    }
  }
}

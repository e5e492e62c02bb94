/**
  The page assembler: fills a page template with the primary product, the
  comparison product and the generated content. The template is dumped to
  JSON text, `{{namespace.key}}` tokens are replaced in that text one key at
  a time, the text is loaded back into a tree, and the FAQ and comparison
  pages then get the parts a text replacement cannot express patched into
  the tree.
 */
module PageAssembler {
  import opened Wrappers
  import opened Text
  import opened ProductModel
  import opened Json
  import CL = ContentLogic
  import CG = ContentGenerator

  // ----- Substitution tables -----

  /** The primary product's `model_dump()` with the derived `skin_type_str` and `benefits_str` keys added after it. */
  function ProductDict(p: Product): seq<(string, FieldValue)>
  {
    Dump(p) + [("skin_type_str", Scalar(Join(p.skinType, ", "))), ("benefits_str", Scalar(Join(p.benefits, "; ")))]
  }

  /** The comparison product's `model_dump()` with the derived `skin_type_str` key added after it. */
  function ProductBDict(b: ComparisonProduct): seq<(string, FieldValue)>
  {
    DumpComparison(b) + [("skin_type_str", Scalar(Join(b.product.skinType, ", ")))]
  }

  /** The primary table lists the record's fields in order, then the two derived keys, with their joined lists. */
  lemma ProductDictKeys(p: Product)
    ensures var d := ProductDict(p);
      && |d| == |FIELDS| + 2
      && (forall k :: 0 <= k < |FIELDS| ==> d[k] == (Name(FIELDS[k]), FieldMap(p)[FIELDS[k]]))
      && d[|FIELDS|] == ("skin_type_str", Scalar(Join(p.skinType, ", ")))
      && d[|FIELDS| + 1] == ("benefits_str", Scalar(Join(p.benefits, "; ")))
  {
    DumpListsFields(p);
  }

  // ----- Tokens -----

  const TOKEN_OPEN: string := "{{"
  const TOKEN_CLOSE: string := "}}"
  const PRODUCT_NS: string := "product_data."
  const PRODUCT_B_NS: string := "product_b_data."
  const STR_SUFFIX: string := "_str"
  const SUMMARY_TOKEN: string := TOKEN_OPEN + "content_data.product_summary_block" + TOKEN_CLOSE
  const DATE_TOKEN: string := TOKEN_OPEN + "current_date" + TOKEN_CLOSE

  /** `{{product_data.<key>}}`. */
  function ProductToken(key: string): string
  {
    TOKEN_OPEN + PRODUCT_NS + key + TOKEN_CLOSE
  }

  /** `{{product_data.<key>_str}}`. */
  function ProductStrToken(key: string): string
  {
    TOKEN_OPEN + PRODUCT_NS + key + STR_SUFFIX + TOKEN_CLOSE
  }

  /** `{{product_b_data.<key>}}`. */
  function ProductBToken(key: string): string
  {
    TOKEN_OPEN + PRODUCT_B_NS + key + TOKEN_CLOSE
  }

  // ----- Value texts -----

  /** A primary value as text: a list is `"; "`-joined first. */
  function ProductText(v: FieldValue): string
  {
    match v
    case Scalar(t) => t
    case Items(xs) => Join(xs, "; ")
  }

  const HEX_DIGITS: string := "0123456789abcdef"

  /** The quote Python's `repr` puts around a string: double quotes when it has a single quote and no double quote. */
  function QuoteFor(s: string): char
  {
    if '\'' in s && '"' !in s then '"' else '\''
  }

  /** One character inside a Python string `repr` delimited by `q`. */
  function EscapeChar(c: char, q: char): string
  {
    if c == q || c == '\\' then ['\\', c]
    else if c == '\t' then ['\\', 't']
    else if c == '\n' then ['\\', 'n']
    else if c == '\r' then ['\\', 'r']
    else if c < ' ' || c as int == 127 then ['\\', 'x', HEX_DIGITS[c as int / 16], HEX_DIGITS[c as int % 16]]
    else [c]
  }

  /** The body of a Python string `repr` delimited by `q`. */
  function Escape(s: string, q: char): string
    decreases |s|
  {
    if s == [] then [] else EscapeChar(s[0], q) + Escape(s[1..], q)
  }

  /** Python's `repr` of a string. */
  function Repr(s: string): string
  {
    var q := QuoteFor(s);
    [q] + Escape(s, q) + [q]
  }

  /** Python's `str` of a list of strings: `['a', 'b']`. */
  function ListRepr(xs: seq<string>): string
  {
    "[" + Join(seq(|xs|, i requires 0 <= i < |xs| => Repr(xs[i])), ", ") + "]"
  }

  /** A comparison value as text: `str(value)`, so a list appears as its Python `repr`. */
  function ProductBText(v: FieldValue): string
  {
    match v
    case Scalar(t) => t
    case Items(xs) => ListRepr(xs)
  }

  /** The value of a hexadecimal digit. */
  function DigitValue(d: char): (n: nat)
    ensures n < 16
  {
    if '0' <= d <= '9' then d as int - '0' as int
    else if 'a' <= d <= 'f' then d as int - 'a' as int + 10
    else 0
  }

  /** Reading a string `repr` body back: every escape sequence stands for the character it encodes. */
  function Unescape(t: string): string
    decreases |t|
  {
    if t == [] then []
    else if t[0] == '\\' && |t| >= 2 then
      if t[1] == 'n' then ['\n'] + Unescape(t[2..])
      else if t[1] == 'r' then ['\r'] + Unescape(t[2..])
      else if t[1] == 't' then ['\t'] + Unescape(t[2..])
      else if t[1] == 'x' && |t| >= 4 then [(DigitValue(t[2]) * 16 + DigitValue(t[3])) as char] + Unescape(t[4..])
      else [t[1]] + Unescape(t[2..])
    else [t[0]] + Unescape(t[1..])
  }

  /** Each hexadecimal digit reads back as its value. */
  lemma HexDigitsRead()
    ensures forall d :: 0 <= d < 16 ==> DigitValue(HEX_DIGITS[d]) == d
  {
    forall d | 0 <= d < 16
      ensures DigitValue(HEX_DIGITS[d]) == d
    {
      assert HEX_DIGITS == ['0', '1', '2', '3', '4', '5', '6', '7', '8', '9', 'a', 'b', 'c', 'd', 'e', 'f'];
    }
  }

  /** One escaped character reads back as that character, and reading continues after it. */
  lemma UnescapeStep(c: char, q: char, rest: string)
    requires q == '\'' || q == '"'
    ensures Unescape(EscapeChar(c, q) + rest) == [c] + Unescape(rest)
  {
    var t := EscapeChar(c, q) + rest;
    if c == q || c == '\\' {
      assert t[2..] == rest;
    } else if c == '\t' || c == '\n' || c == '\r' {
      assert t[2..] == rest;
    } else if c < ' ' || c as int == 127 {
      UnescapeHex(c, rest);
    } else {
      assert t[1..] == rest;
    }
  }

  /** A control character, escaped as `\xHH`, reads back as itself. */
  lemma UnescapeHex(c: char, rest: string)
    requires c < ' ' || c as int == 127
    requires c != '\t' && c != '\n' && c != '\r'
    ensures Unescape(['\\', 'x', HEX_DIGITS[c as int / 16], HEX_DIGITS[c as int % 16]] + rest) == [c] + Unescape(rest)
  {
    var t := ['\\', 'x', HEX_DIGITS[c as int / 16], HEX_DIGITS[c as int % 16]] + rest;
    HexDigitsRead();
    assert t[4..] == rest;
    assert (c as int / 16) * 16 + c as int % 16 == c as int;
  }

  /** Escaping and reading back gives the original string. */
  lemma {:induction false} UnescapeEscape(s: string, q: char)
    requires q == '\'' || q == '"'
    ensures Unescape(Escape(s, q)) == s
    decreases |s|
  {
    if s != [] {
      UnescapeEscape(s[1..], q);
      UnescapeStep(s[0], q, Escape(s[1..], q));
      assert s == [s[0]] + s[1..];
    }
  }

  /** A string `repr` is the string, escaped, between two equal quotes; reading its body back gives the string. */
  lemma ReprReadsBack(s: string)
    ensures var r := Repr(s);
      && |r| >= 2 && r[0] == r[|r| - 1] == QuoteFor(s)
      && Unescape(r[1..|r| - 1]) == s
  {
    var q := QuoteFor(s);
    var r := Repr(s);
    assert r[1..|r| - 1] == Escape(s, q);
    UnescapeEscape(s, q);
  }

  // ----- Token replacement -----

  /**
    One key of the primary table (page_assembler_agent.py:41-49): the value, lists `"; "`-joined
    and double quotes removed, replaces `{{product_data.<key>_str}}` when that
    token occurs, and otherwise `{{product_data.<key>}}` when that one does.
   */
  function ProductStep(text: string, key: string, v: FieldValue): string
  {
    var value := RemoveQuotes(ProductText(v));
    if Contains(text, ProductStrToken(key)) then Replace(text, ProductStrToken(key), value)
    else if Contains(text, ProductToken(key)) then Replace(text, ProductToken(key), value)
    else text
  }

  /** One key of the comparison table (page_assembler_agent.py:52-54): `str(value)` without double quotes replaces `{{product_b_data.<key>}}`. */
  function ProductBStep(text: string, key: string, v: FieldValue): string
  {
    if Contains(text, ProductBToken(key)) then Replace(text, ProductBToken(key), RemoveQuotes(ProductBText(v)))
    else text
  }

  /** The primary table's keys, handled in order. */
  function ProductPass(text: string, entries: seq<(string, FieldValue)>): string
    decreases |entries|
  {
    if entries == [] then text else ProductPass(ProductStep(text, entries[0].0, entries[0].1), entries[1..])
  }

  /** The comparison table's keys, handled in order. */
  function ProductBPass(text: string, entries: seq<(string, FieldValue)>): string
    decreases |entries|
  {
    if entries == [] then text else ProductBPass(ProductBStep(text, entries[0].0, entries[0].1), entries[1..])
  }

  /** The whole text substitution of page_assembler_agent.py:41-60 on the dumped template. */
  function Substituted(text: string, p: Product, b: ComparisonProduct, summary: string, today: string): string
  {
    var afterProducts := ProductBPass(ProductPass(text, ProductDict(p)), ProductBDict(b));
    Replace(Replace(afterProducts, SUMMARY_TOKEN, summary), DATE_TOKEN, today)
  }

  /**
    A primary key's step is one all-occurrence replacement: of the `_str`
    token when it occurs, and otherwise of the plain token (which changes
    nothing when that one does not occur either).
   */
  lemma ProductStepReplaces(text: string, key: string, v: FieldValue)
    ensures Contains(text, ProductStrToken(key)) ==>
      ProductStep(text, key, v) == Replace(text, ProductStrToken(key), RemoveQuotes(ProductText(v)))
    ensures !Contains(text, ProductStrToken(key)) ==>
      ProductStep(text, key, v) == Replace(text, ProductToken(key), RemoveQuotes(ProductText(v)))
  {
    if !Contains(text, ProductStrToken(key)) && !Contains(text, ProductToken(key)) {
      ReplaceAbsent(text, ProductToken(key), RemoveQuotes(ProductText(v)));
    }
  }

  /** A comparison key's step is one all-occurrence replacement of its token. */
  lemma ProductBStepReplaces(text: string, key: string, v: FieldValue)
    ensures ProductBStep(text, key, v) == Replace(text, ProductBToken(key), RemoveQuotes(ProductBText(v)))
  {
    if !Contains(text, ProductBToken(key)) {
      ReplaceAbsent(text, ProductBToken(key), RemoveQuotes(ProductBText(v)));
    }
  }

  /**
    Replacing a token does not clear it for good: when the inserted value
    itself holds the token, the token is still in the text afterwards.
   */
  lemma ProductStepCanLeaveToken(text: string, key: string, value: string)
    requires Contains(text, ProductToken(key)) && !Contains(text, ProductStrToken(key))
    requires '"' !in value && Contains(value, ProductToken(key))
    ensures Contains(ProductStep(text, key, Scalar(value)), ProductToken(key))
  {
    RemoveQuotesKeeps(value);
    ReplaceValueSurvives(text, ProductToken(key), value);
  }

  /**
    `{{product_data.skin_type_str}}` is taken by the `skin_type` key, which
    comes before the derived `skin_type_str` key and looks for its `_str`
    token first: the token receives the `"; "`-joined list, not the
    `", "`-joined one the derived key holds.
   */
  lemma SkinTypeStrTakesSemicolonJoin(text: string, p: Product)
    requires Contains(text, ProductStrToken("skin_type"))
    ensures ProductStrToken("skin_type") == ProductToken("skin_type_str")
    ensures ProductDict(p)[2] == ("skin_type", Items(p.skinType))
    ensures ProductDict(p)[8] == ("skin_type_str", Scalar(Join(p.skinType, ", ")))
    ensures ProductStep(text, "skin_type", Items(p.skinType))
      == Replace(text, ProductToken("skin_type_str"), RemoveQuotes(Join(p.skinType, "; ")))
  {
    assert "skin_type" + STR_SUFFIX == "skin_type_str";
    assert TOKEN_OPEN + PRODUCT_NS + "skin_type" + STR_SUFFIX + TOKEN_CLOSE
      == TOKEN_OPEN + PRODUCT_NS + ("skin_type" + STR_SUFFIX) + TOKEN_CLOSE;
  }

  // ----- Quotes -----

  /** No key of the table has a double quote. */
  predicate QuoteFreeKeys(entries: seq<(string, FieldValue)>)
  {
    forall i :: 0 <= i < |entries| ==> '"' !in entries[i].0
  }

  /** The keys of both substitution tables are free of double quotes. */
  lemma TablesQuoteFree(p: Product, b: ComparisonProduct)
    ensures QuoteFreeKeys(ProductDict(p)) && QuoteFreeKeys(ProductBDict(b))
  {
  }

  /** A primary step changes no double quote of the text: neither the tokens nor the quote-stripped values have one. */
  lemma ProductStepKeepsQuotes(text: string, key: string, v: FieldValue)
    requires '"' !in key
    ensures Count(ProductStep(text, key, v), '"') == Count(text, '"')
  {
    var value := RemoveQuotes(ProductText(v));
    if Contains(text, ProductStrToken(key)) {
      ReplaceKeepsCount(text, ProductStrToken(key), value, '"');
    } else if Contains(text, ProductToken(key)) {
      ReplaceKeepsCount(text, ProductToken(key), value, '"');
    }
  }

  /** A comparison step changes no double quote of the text. */
  lemma ProductBStepKeepsQuotes(text: string, key: string, v: FieldValue)
    requires '"' !in key
    ensures Count(ProductBStep(text, key, v), '"') == Count(text, '"')
  {
    if Contains(text, ProductBToken(key)) {
      ReplaceKeepsCount(text, ProductBToken(key), RemoveQuotes(ProductBText(v)), '"');
    }
  }

  /** The primary pass keeps the number of double quotes. */
  lemma {:induction false} ProductPassKeepsQuotes(text: string, entries: seq<(string, FieldValue)>)
    requires QuoteFreeKeys(entries)
    ensures Count(ProductPass(text, entries), '"') == Count(text, '"')
    decreases |entries|
  {
    if entries != [] {
      ProductStepKeepsQuotes(text, entries[0].0, entries[0].1);
      assert QuoteFreeKeys(entries[1..]) by {
        forall i | 0 <= i < |entries[1..]|
          ensures '"' !in entries[1..][i].0
        {
          assert entries[1..][i] == entries[i + 1];
        }
      }
      ProductPassKeepsQuotes(ProductStep(text, entries[0].0, entries[0].1), entries[1..]);
    }
  }

  /** The comparison pass keeps the number of double quotes. */
  lemma {:induction false} ProductBPassKeepsQuotes(text: string, entries: seq<(string, FieldValue)>)
    requires QuoteFreeKeys(entries)
    ensures Count(ProductBPass(text, entries), '"') == Count(text, '"')
    decreases |entries|
  {
    if entries != [] {
      ProductBStepKeepsQuotes(text, entries[0].0, entries[0].1);
      assert QuoteFreeKeys(entries[1..]) by {
        forall i | 0 <= i < |entries[1..]|
          ensures '"' !in entries[1..][i].0
        {
          assert entries[1..][i] == entries[i + 1];
        }
      }
      ProductBPassKeepsQuotes(ProductBStep(text, entries[0].0, entries[0].1), entries[1..]);
    }
  }

  /**
    Product values cannot end a JSON string early: the two product passes
    leave exactly as many double quotes as the dumped template had. The
    summary and the date are inserted as they are, so only they can add any.
   */
  lemma ProductPassesKeepQuotes(text: string, p: Product, b: ComparisonProduct, summary: string, today: string)
    ensures Count(ProductBPass(ProductPass(text, ProductDict(p)), ProductBDict(b)), '"') == Count(text, '"')
    ensures '"' !in summary && '"' !in today ==> Count(Substituted(text, p, b, summary, today), '"') == Count(text, '"')
  {
    TablesQuoteFree(p, b);
    ProductPassKeepsQuotes(text, ProductDict(p));
    var afterProducts := ProductBPass(ProductPass(text, ProductDict(p)), ProductBDict(b));
    ProductBPassKeepsQuotes(ProductPass(text, ProductDict(p)), ProductBDict(b));
    if '"' !in summary && '"' !in today {
      ReplaceKeepsCount(afterProducts, SUMMARY_TOKEN, summary, '"');
      ReplaceKeepsCount(Replace(afterProducts, SUMMARY_TOKEN, summary), DATE_TOKEN, today, '"');
    }
  }

  /** The summary step puts the summary block into the text as it is, double quotes included. */
  lemma SummaryInsertedVerbatim(text: string, summary: string)
    requires Contains(text, SUMMARY_TOKEN) && summary != []
    ensures Contains(Replace(text, SUMMARY_TOKEN, summary), summary)
  {
    ReplaceInserts(text, SUMMARY_TOKEN, summary);
  }

  // ----- Templates without tokens -----

  /** Every token starts with `{{`, so a text without `{{` has none. */
  lemma TokenNeedsOpen(text: string, rest: string)
    ensures Contains(text, TOKEN_OPEN + rest) ==> Contains(text, TOKEN_OPEN)
  {
    if Contains(text, TOKEN_OPEN + rest) {
      ContainsPrefixOf(text, TOKEN_OPEN, rest);
    }
  }

  /** A text without `{{` passes a primary step unchanged. */
  lemma ProductStepWithoutTokens(text: string, key: string, v: FieldValue)
    requires !Contains(text, TOKEN_OPEN)
    ensures ProductStep(text, key, v) == text
  {
    TokenNeedsOpen(text, PRODUCT_NS + key + STR_SUFFIX + TOKEN_CLOSE);
    assert ProductStrToken(key) == TOKEN_OPEN + (PRODUCT_NS + key + STR_SUFFIX + TOKEN_CLOSE);
    TokenNeedsOpen(text, PRODUCT_NS + key + TOKEN_CLOSE);
    assert ProductToken(key) == TOKEN_OPEN + (PRODUCT_NS + key + TOKEN_CLOSE);
  }

  /** A text without `{{` passes a comparison step unchanged. */
  lemma ProductBStepWithoutTokens(text: string, key: string, v: FieldValue)
    requires !Contains(text, TOKEN_OPEN)
    ensures ProductBStep(text, key, v) == text
  {
    TokenNeedsOpen(text, PRODUCT_B_NS + key + TOKEN_CLOSE);
    assert ProductBToken(key) == TOKEN_OPEN + (PRODUCT_B_NS + key + TOKEN_CLOSE);
  }

  /** A text without `{{` passes the primary pass unchanged. */
  lemma {:induction false} ProductPassWithoutTokens(text: string, entries: seq<(string, FieldValue)>)
    requires !Contains(text, TOKEN_OPEN)
    ensures ProductPass(text, entries) == text
    decreases |entries|
  {
    if entries != [] {
      ProductStepWithoutTokens(text, entries[0].0, entries[0].1);
      ProductPassWithoutTokens(text, entries[1..]);
    }
  }

  /** A text without `{{` passes the comparison pass unchanged. */
  lemma {:induction false} ProductBPassWithoutTokens(text: string, entries: seq<(string, FieldValue)>)
    requires !Contains(text, TOKEN_OPEN)
    ensures ProductBPass(text, entries) == text
    decreases |entries|
  {
    if entries != [] {
      ProductBStepWithoutTokens(text, entries[0].0, entries[0].1);
      ProductBPassWithoutTokens(text, entries[1..]);
    }
  }

  /** A dumped template without `{{` comes through the whole substitution unchanged. */
  lemma SubstitutedWithoutTokens(text: string, p: Product, b: ComparisonProduct, summary: string, today: string)
    requires !Contains(text, TOKEN_OPEN)
    ensures Substituted(text, p, b, summary, today) == text
  {
    ProductPassWithoutTokens(text, ProductDict(p));
    ProductBPassWithoutTokens(text, ProductBDict(b));
    TokenNeedsOpen(text, "content_data.product_summary_block" + TOKEN_CLOSE);
    assert SUMMARY_TOKEN == TOKEN_OPEN + ("content_data.product_summary_block" + TOKEN_CLOSE);
    ReplaceAbsent(text, SUMMARY_TOKEN, summary);
    TokenNeedsOpen(text, "current_date" + TOKEN_CLOSE);
    assert DATE_TOKEN == TOKEN_OPEN + ("current_date" + TOKEN_CLOSE);
    ReplaceAbsent(text, DATE_TOKEN, today);
  }

  // ----- Structural patches -----

  /** The exceptions the assembler raises, by their Python names. */
  datatype PageError =
    | DecodeError                 // the substituted text is not JSON
    | AttributeError              // `.get` on something that is not an object
    | KeyError(key: string)       // a missing member of an object
    | IndexKeyError(index: nat)   // an integer subscript on an object
    | IndexError                  // a list subscript out of range
    | TypeError                   // a subscript or assignment the value does not support

  const PAGE_TYPE: string := "page_type"
  const FAQ_PAGE: string := "faq"
  const COMPARISON_PAGE: string := "comparison_table"
  const CONTENT_BLOCKS: string := "content_blocks"
  const BLOCK_TYPE: string := "block_type"
  const QUESTIONS_BLOCK: string := "questions_for_planning"
  const QA_BLOCK: string := "published_qa_list"
  const QUESTIONS_KEY: string := "questions"
  const QA_KEY: string := "qa_pairs"

  /** A categorised question as `model_dump()` gives it, the category as its string value. */
  function QuestionJson(q: CL.CategorizedQuestion): Json
  {
    JObj(map["category" := JStr(CL.CategoryName(q.category)), "question" := JStr(q.question)])
  }

  /** A question-answer pair as `model_dump()` gives it. */
  function PairJson(qa: CL.QuestionAnswer): Json
  {
    JObj(map["question" := JStr(qa.question), "answer" := JStr(qa.answer)])
  }

  /** The generated question list as a JSON list, in order. */
  function QuestionsJson(questions: seq<CL.CategorizedQuestion>): Json
  {
    JArr(seq(|questions|, i requires 0 <= i < |questions| => QuestionJson(questions[i])))
  }

  /** The generated question-answer list as a JSON list, in order. */
  function PairsJson(pairs: seq<CL.QuestionAnswer>): Json
  {
    JArr(seq(|pairs|, i requires 0 <= i < |pairs| => PairJson(pairs[i])))
  }

  /** Whether an object's `block_type` member is the given string. */
  predicate HasBlockType(fields: map<string, Json>, blockType: string)
  {
    Get(fields, BLOCK_TYPE) == Some(JStr(blockType))
  }

  /**
    One content block of the FAQ page (page_assembler_agent.py:68-71): a planning block gets
    the question list, a published block gets the answer list, any other
    object stays as it is, and anything but an object has no `.get`.
   */
  function PatchBlock(block: Json, content: CG.Content): (r: Result<Json, PageError>)
    ensures r.Ok? <==> block.JObj?
    ensures r.Err? ==> r.error == AttributeError
    ensures r.Ok? ==>
      && r.value.JObj?
      && (HasBlockType(block.fields, QUESTIONS_BLOCK) ==>
            r.value.fields.Keys == block.fields.Keys + {QUESTIONS_KEY}
            && r.value.fields[QUESTIONS_KEY] == QuestionsJson(content.userQuestions))
      && (!HasBlockType(block.fields, QUESTIONS_BLOCK) && HasBlockType(block.fields, QA_BLOCK) ==>
            r.value.fields.Keys == block.fields.Keys + {QA_KEY}
            && r.value.fields[QA_KEY] == PairsJson(content.faqQAPairs))
      && (!HasBlockType(block.fields, QUESTIONS_BLOCK) && !HasBlockType(block.fields, QA_BLOCK) ==> r.value == block)
      && (HasBlockType(block.fields, QUESTIONS_BLOCK) ==>
            forall k :: k in block.fields && k != QUESTIONS_KEY ==> r.value.fields[k] == block.fields[k])
      && (!HasBlockType(block.fields, QUESTIONS_BLOCK) ==>
            forall k :: k in block.fields && k != QA_KEY ==> r.value.fields[k] == block.fields[k])
  {
    match block
    case JObj(fields) =>
      if HasBlockType(fields, QUESTIONS_BLOCK) then Ok(JObj(fields[QUESTIONS_KEY := QuestionsJson(content.userQuestions)]))
      else if HasBlockType(fields, QA_BLOCK) then Ok(JObj(fields[QA_KEY := PairsJson(content.faqQAPairs)]))
      else Ok(block)
    case _ => Err(AttributeError)
  }

  /** The blocks patched in order; the first block that is not an object stops the loop. */
  function PatchBlocks(blocks: seq<Json>, content: CG.Content): Result<seq<Json>, PageError>
    decreases |blocks|
  {
    if blocks == [] then Ok([])
    else match PatchBlocks(blocks[..|blocks| - 1], content)
      case Err(e) => Err(e)
      case Ok(done) =>
        match PatchBlock(blocks[|blocks| - 1], content)
        case Err(e) => Err(e)
        case Ok(last) => Ok(done + [last])
  }

  /** Patching succeeds exactly when every block is an object, and then patches each block on its own. */
  lemma {:induction false} PatchBlocksEach(blocks: seq<Json>, content: CG.Content)
    ensures PatchBlocks(blocks, content).Ok? <==> forall i :: 0 <= i < |blocks| ==> blocks[i].JObj?
    ensures PatchBlocks(blocks, content).Err? ==> PatchBlocks(blocks, content).error == AttributeError
    ensures PatchBlocks(blocks, content).Ok? ==>
      var patched := PatchBlocks(blocks, content).value;
      |patched| == |blocks| && forall i :: 0 <= i < |blocks| ==> patched[i] == PatchBlock(blocks[i], content).value
    decreases |blocks|
  {
    if blocks != [] {
      var front := blocks[..|blocks| - 1];
      PatchBlocksEach(front, content);
      assert forall i :: 0 <= i < |front| ==> front[i] == blocks[i];
    }
  }

  /**
    The FAQ patch (page_assembler_agent.py:65-71): on a page whose `page_type` is `"faq"`,
    every member of `content_blocks` is patched. The loop also runs, doing
    nothing, over an empty object or an empty string; a non-empty one yields
    strings, which have no `.get`; any other value cannot be iterated.
   */
  function FaqPatch(page: map<string, Json>, content: CG.Content): (r: Result<map<string, Json>, PageError>)
    ensures Get(page, PAGE_TYPE) != Some(JStr(FAQ_PAGE)) ==> r == Ok(page)
    ensures Get(page, PAGE_TYPE) == Some(JStr(FAQ_PAGE)) && CONTENT_BLOCKS !in page ==> r == Err(KeyError(CONTENT_BLOCKS))
  {
    if Get(page, PAGE_TYPE) != Some(JStr(FAQ_PAGE)) then Ok(page)
    else if CONTENT_BLOCKS !in page then Err(KeyError(CONTENT_BLOCKS))
    else match page[CONTENT_BLOCKS]
      case JArr(blocks) =>
        (match PatchBlocks(blocks, content)
         case Err(e) => Err(e)
         case Ok(patched) => Ok(page[CONTENT_BLOCKS := JArr(patched)]))
      case JObj(members) => if members == map[] then Ok(page) else Err(AttributeError)
      case JStr(str) => if str == [] then Ok(page) else Err(AttributeError)
      case _ => Err(TypeError)
  }

  /**
    On an FAQ page with a list of blocks, the patch succeeds exactly when
    every block is an object; it then replaces each block by its patched
    form and changes no other member of the page.
   */
  lemma FaqPatchBlocks(page: map<string, Json>, content: CG.Content)
    requires Get(page, PAGE_TYPE) == Some(JStr(FAQ_PAGE))
    requires CONTENT_BLOCKS in page && page[CONTENT_BLOCKS].JArr?
    ensures var blocks := page[CONTENT_BLOCKS].items;
      && (FaqPatch(page, content).Ok? <==> forall i :: 0 <= i < |blocks| ==> blocks[i].JObj?)
      && (FaqPatch(page, content).Ok? ==>
            var patched := FaqPatch(page, content).value;
            && patched.Keys == page.Keys
            && (forall k :: k in page && k != CONTENT_BLOCKS ==> patched[k] == page[k])
            && patched[CONTENT_BLOCKS].JArr?
            && |patched[CONTENT_BLOCKS].items| == |blocks|
            && forall i :: 0 <= i < |blocks| ==> patched[CONTENT_BLOCKS].items[i] == PatchBlock(blocks[i], content).value)
  {
    PatchBlocksEach(page[CONTENT_BLOCKS].items, content);
  }


  /**
    One assignment `page['comparison_points'][index][field] = value` (lines
    75-78), with Python's failures: a missing list is a `KeyError`, an index
    past the end an `IndexError`, an integer subscript on an object a
    `KeyError`, and a point that is not an object cannot take a string key.
   */
  function SetPointField(page: map<string, Json>, index: nat, field: string, value: string): (r: Result<map<string, Json>, PageError>)
  {
    if COMPARISON_POINTS !in page then Err(KeyError(COMPARISON_POINTS))
    else match page[COMPARISON_POINTS]
      case JArr(points) =>
        if index >= |points| then Err(IndexError)
        else (match points[index]
          case JObj(point) => Ok(page[COMPARISON_POINTS := JArr(points[index := JObj(point[field := JStr(value)])])])
          case _ => Err(TypeError))
      case JObj(_) => Err(IndexKeyError(index))
      case JStr(str) => if index < |str| then Err(TypeError) else Err(IndexError)
      case _ => Err(TypeError)
  }

  const COMPARISON_POINTS: string := "comparison_points"
  const GLOWBOOST_KEY: string := "glowboost"
  const COMPETITOR_KEY: string := "competitor"

  /** Whether the page's `comparison_points` is a list with objects at positions 0 and 2. */
  predicate PointsReady(page: map<string, Json>)
  {
    && COMPARISON_POINTS in page
    && page[COMPARISON_POINTS].JArr?
    && |page[COMPARISON_POINTS].items| >= 3
    && page[COMPARISON_POINTS].items[0].JObj?
    && page[COMPARISON_POINTS].items[2].JObj?
  }

  /**
    The comparison patch (page_assembler_agent.py:74-78): on a page whose `page_type` is
    `"comparison_table"`, four assignments in order. Each right-hand side
    (a list's first element) is read before its target is looked up.
   */
  function ComparisonPatch(page: map<string, Json>, p: Product, b: ComparisonProduct): (r: Result<map<string, Json>, PageError>)
    ensures Get(page, PAGE_TYPE) != Some(JStr(COMPARISON_PAGE)) ==> r == Ok(page)
  {
    if Get(page, PAGE_TYPE) != Some(JStr(COMPARISON_PAGE)) then Ok(page)
    else if |p.keyIngredients| == 0 then Err(IndexError)
    else match SetPointField(page, 0, GLOWBOOST_KEY, p.keyIngredients[0])
      case Err(e) => Err(e)
      case Ok(page1) =>
        if |b.product.keyIngredients| == 0 then Err(IndexError)
        else match SetPointField(page1, 0, COMPETITOR_KEY, b.product.keyIngredients[0])
          case Err(e) => Err(e)
          case Ok(page2) =>
            if |p.benefits| == 0 then Err(IndexError)
            else match SetPointField(page2, 2, GLOWBOOST_KEY, p.benefits[0])
              case Err(e) => Err(e)
              case Ok(page3) =>
                if |b.product.benefits| == 0 then Err(IndexError)
                else SetPointField(page3, 2, COMPETITOR_KEY, b.product.benefits[0])
  }

  /** Setting a field of a point that is an object changes that point's field and nothing else. */
  lemma SetPointFieldEffect(page: map<string, Json>, index: nat, field: string, value: string)
    requires COMPARISON_POINTS in page && page[COMPARISON_POINTS].JArr?
    requires index < |page[COMPARISON_POINTS].items| && page[COMPARISON_POINTS].items[index].JObj?
    ensures SetPointField(page, index, field, value).Ok?
    ensures var points := page[COMPARISON_POINTS].items;
      var updated := SetPointField(page, index, field, value).value;
      && updated.Keys == page.Keys
      && (forall k :: k in page && k != COMPARISON_POINTS ==> updated[k] == page[k])
      && updated[COMPARISON_POINTS].JArr?
      && |updated[COMPARISON_POINTS].items| == |points|
      && (forall j :: 0 <= j < |points| && j != index ==> updated[COMPARISON_POINTS].items[j] == points[j])
      && updated[COMPARISON_POINTS].items[index].JObj?
      && updated[COMPARISON_POINTS].items[index].fields == points[index].fields[field := JStr(value)]
  {
  }

  /**
    On a comparison page, the patch succeeds exactly when the four lists it
    reads are non-empty and `comparison_points` is a list with objects at
    positions 0 and 2. It then sets `glowboost` and `competitor` of point 0
    to the first key ingredients and of point 2 to the first benefits, and
    changes nothing else.
   */
  lemma ComparisonPatchEffect(page: map<string, Json>, p: Product, b: ComparisonProduct)
    requires Get(page, PAGE_TYPE) == Some(JStr(COMPARISON_PAGE))
    ensures ComparisonPatch(page, p, b).Ok? <==>
      && |p.keyIngredients| > 0 && |b.product.keyIngredients| > 0 && |p.benefits| > 0 && |b.product.benefits| > 0
      && PointsReady(page)
    ensures ComparisonPatch(page, p, b).Ok? ==>
      var points := page[COMPARISON_POINTS].items;
      var patched := ComparisonPatch(page, p, b).value;
      && patched.Keys == page.Keys
      && (forall k :: k in page && k != COMPARISON_POINTS ==> patched[k] == page[k])
      && patched[COMPARISON_POINTS].JArr?
      && |patched[COMPARISON_POINTS].items| == |points|
      && (forall j :: 0 <= j < |points| && j != 0 && j != 2 ==> patched[COMPARISON_POINTS].items[j] == points[j])
      && patched[COMPARISON_POINTS].items[0].fields
        == points[0].fields[GLOWBOOST_KEY := JStr(p.keyIngredients[0])][COMPETITOR_KEY := JStr(b.product.keyIngredients[0])]
      && patched[COMPARISON_POINTS].items[2].fields
        == points[2].fields[GLOWBOOST_KEY := JStr(p.benefits[0])][COMPETITOR_KEY := JStr(b.product.benefits[0])]
  {
    if |p.keyIngredients| > 0 && PointsReady(page) {
      SetPointFieldEffect(page, 0, GLOWBOOST_KEY, p.keyIngredients[0]);
      var page1 := SetPointField(page, 0, GLOWBOOST_KEY, p.keyIngredients[0]).value;
      if |b.product.keyIngredients| > 0 {
        SetPointFieldEffect(page1, 0, COMPETITOR_KEY, b.product.keyIngredients[0]);
        var page2 := SetPointField(page1, 0, COMPETITOR_KEY, b.product.keyIngredients[0]).value;
        if |p.benefits| > 0 {
          SetPointFieldEffect(page2, 2, GLOWBOOST_KEY, p.benefits[0]);
          var page3 := SetPointField(page2, 2, GLOWBOOST_KEY, p.benefits[0]).value;
          if |b.product.benefits| > 0 {
            SetPointFieldEffect(page3, 2, COMPETITOR_KEY, b.product.benefits[0]);
          }
        }
      }
    }
  }

  /** The FAQ patch as the loop of page_assembler_agent.py:65-71 performs it. */
  method PatchFaqPage(page: map<string, Json>, content: CG.Content) returns (r: Result<map<string, Json>, PageError>)
    ensures r == FaqPatch(page, content)
  {
    if Get(page, PAGE_TYPE) != Some(JStr(FAQ_PAGE)) {
      return Ok(page);
    }
    if CONTENT_BLOCKS !in page {
      return Err(KeyError(CONTENT_BLOCKS));
    }
    match page[CONTENT_BLOCKS] {
      case JArr(blocks) =>
        var patched: seq<Json> := [];
        for i := 0 to |blocks|
          invariant PatchBlocks(blocks[..i], content) == Ok(patched)
        {
          var block := blocks[i];
          if !block.JObj? {
            PatchBlocksEach(blocks, content);
            return Err(AttributeError);
          }
          if HasBlockType(block.fields, QUESTIONS_BLOCK) {
            block := JObj(block.fields[QUESTIONS_KEY := QuestionsJson(content.userQuestions)]);
          } else if HasBlockType(block.fields, QA_BLOCK) {
            block := JObj(block.fields[QA_KEY := PairsJson(content.faqQAPairs)]);
          }
          assert blocks[..i + 1][..i] == blocks[..i];
          patched := patched + [block];
        }
        assert blocks[..|blocks|] == blocks;
        return Ok(page[CONTENT_BLOCKS := JArr(patched)]);
      case JObj(members) =>
        return if members == map[] then Ok(page) else Err(AttributeError);
      case JStr(str) =>
        return if str == [] then Ok(page) else Err(AttributeError);
      case _ =>
        return Err(TypeError);
    }
  }

  /** The comparison patch as the four assignments of page_assembler_agent.py:74-78 perform it. */
  method PatchComparisonPage(page: map<string, Json>, p: Product, b: ComparisonProduct)
    returns (r: Result<map<string, Json>, PageError>)
    ensures r == ComparisonPatch(page, p, b)
  {
    if Get(page, PAGE_TYPE) != Some(JStr(COMPARISON_PAGE)) {
      return Ok(page);
    }
    if |p.keyIngredients| == 0 {
      return Err(IndexError);
    }
    var step := SetPointField(page, 0, GLOWBOOST_KEY, p.keyIngredients[0]);
    if step.Err? {
      return step;
    }
    if |b.product.keyIngredients| == 0 {
      return Err(IndexError);
    }
    step := SetPointField(step.value, 0, COMPETITOR_KEY, b.product.keyIngredients[0]);
    if step.Err? {
      return step;
    }
    if |p.benefits| == 0 {
      return Err(IndexError);
    }
    step := SetPointField(step.value, 2, GLOWBOOST_KEY, p.benefits[0]);
    if step.Err? {
      return step;
    }
    if |b.product.benefits| == 0 {
      return Err(IndexError);
    }
    r := SetPointField(step.value, 2, COMPETITOR_KEY, b.product.benefits[0]);
  }

  // ----- Assembly -----

  /**
    `_apply_template`: substitute the tokens in the dumped template, load the
    text back, then apply the FAQ patch and the comparison patch. A loaded
    value that is not an object has no `.get`.
   */
  function AssembledPage(template: map<string, Json>, p: Product, b: ComparisonProduct, content: CG.Content,
                         codec: Codec, today: string): Result<map<string, Json>, PageError>
  {
    var text := Substituted(codec.dump(JObj(template)), p, b, content.productSummaryBlock, today);
    match codec.load(text)
    case None => Err(DecodeError)
    case Some(loaded) =>
      if !loaded.JObj? then Err(AttributeError)
      else match FaqPatch(loaded.fields, content)
        case Err(e) => Err(e)
        case Ok(page) => ComparisonPatch(page, p, b)
  }

  /**
    A template whose dump has no `{{` comes out as the template itself with
    only the structural patches applied, provided loading a dump gives the
    tree back.
   */
  lemma TemplateWithoutTokens(template: map<string, Json>, p: Product, b: ComparisonProduct, content: CG.Content,
                              codec: Codec, today: string)
    requires RoundTrips(codec)
    requires !Contains(codec.dump(JObj(template)), TOKEN_OPEN)
    ensures AssembledPage(template, p, b, content, codec, today) ==
      match FaqPatch(template, content)
      case Err(e) => Err(e)
      case Ok(page) => ComparisonPatch(page, p, b)
  {
    SubstitutedWithoutTokens(codec.dump(JObj(template)), p, b, content.productSummaryBlock, today);
    assert codec.load(codec.dump(JObj(template))) == Some(JObj(template));
  }

  /** The three page templates. */
  datatype PageTemplates = PageTemplates(faq: map<string, Json>, product: map<string, Json>, comparison: map<string, Json>)

  /** The output file names, in the order the pages are built. */
  const PAGE_FILES: seq<string> := ["faq.json", "product_page.json", "comparison_page.json"]

  /** The outcome of building the three pages in order: the named pages, or the first page's error. */
  function CollectPages(faq: Result<map<string, Json>, PageError>, product: Result<map<string, Json>, PageError>,
                        comparison: Result<map<string, Json>, PageError>): (r: Result<seq<(string, map<string, Json>)>, PageError>)
    ensures r.Ok? <==> faq.Ok? && product.Ok? && comparison.Ok?
    ensures r.Ok? ==>
      && |r.value| == |PAGE_FILES|
      && (forall i :: 0 <= i < |PAGE_FILES| ==> r.value[i].0 == PAGE_FILES[i])
      && r.value[0].1 == faq.value && r.value[1].1 == product.value && r.value[2].1 == comparison.value
    ensures r.Err? ==>
      r.error == (if faq.Err? then faq.error else if product.Err? then product.error else comparison.error)
  {
    match faq
    case Err(e) => Err(e)
    case Ok(faqPage) =>
      match product
      case Err(e) => Err(e)
      case Ok(productPage) =>
        match comparison
        case Err(e) => Err(e)
        case Ok(comparisonPage) =>
          Ok([(PAGE_FILES[0], faqPage), (PAGE_FILES[1], productPage), (PAGE_FILES[2], comparisonPage)])
  }

  /** The pages `run` builds, named by output file. */
  function AssembledPages(templates: PageTemplates, p: Product, b: ComparisonProduct, content: CG.Content,
                          codec: Codec, today: string): Result<seq<(string, map<string, Json>)>, PageError>
  {
    CollectPages(
      AssembledPage(templates.faq, p, b, content, codec, today),
      AssembledPage(templates.product, p, b, content, codec, today),
      AssembledPage(templates.comparison, p, b, content, codec, today))
  }

  /** The assembler agent: holds the two products and the generated content. */
  class PageAssemblerAgent {
    const productData: Product
    const productBData: ComparisonProduct
    const contentData: CG.Content
    const outputDir: string

    constructor (productData: Product, productBData: ComparisonProduct, contentData: CG.Content)
      ensures this.productData == productData && this.productBData == productBData && this.contentData == contentData
      ensures outputDir == "output/"
    {
      this.productData := productData;
      this.productBData := productBData;
      this.contentData := contentData;
      outputDir := "output/";
    }

    /** `_apply_template`, step by step: the two token loops, the summary and the date, the load, the patches. */
    method ApplyTemplate(template: map<string, Json>, codec: Codec, today: string)
      returns (r: Result<map<string, Json>, PageError>)
      ensures r == AssembledPage(template, productData, productBData, contentData, codec, today)
    {
      var assembledPage := template;
      var prodDataDict := ProductDict(productData);
      var prodBDataDict := ProductBDict(productBData);
      var assembledJsonStr := codec.dump(JObj(assembledPage));
      ghost var dumped := assembledJsonStr;

      for i := 0 to |prodDataDict|
        invariant ProductPass(assembledJsonStr, prodDataDict[i..]) == ProductPass(dumped, prodDataDict)
      {
        var (key, value) := prodDataDict[i];
        var text := RemoveQuotes(ProductText(value));
        if Contains(assembledJsonStr, ProductStrToken(key)) {
          assembledJsonStr := Replace(assembledJsonStr, ProductStrToken(key), text);
        } else if Contains(assembledJsonStr, ProductToken(key)) {
          assembledJsonStr := Replace(assembledJsonStr, ProductToken(key), text);
        }
        assert prodDataDict[i..][1..] == prodDataDict[i + 1..];
      }
      ghost var afterProduct := assembledJsonStr;

      for i := 0 to |prodBDataDict|
        invariant ProductBPass(assembledJsonStr, prodBDataDict[i..]) == ProductBPass(afterProduct, prodBDataDict)
      {
        var (key, value) := prodBDataDict[i];
        if Contains(assembledJsonStr, ProductBToken(key)) {
          assembledJsonStr := Replace(assembledJsonStr, ProductBToken(key), RemoveQuotes(ProductBText(value)));
        }
        assert prodBDataDict[i..][1..] == prodBDataDict[i + 1..];
      }

      assembledJsonStr := Replace(assembledJsonStr, SUMMARY_TOKEN, contentData.productSummaryBlock);
      assembledJsonStr := Replace(assembledJsonStr, DATE_TOKEN, today);

      var finalDict := codec.load(assembledJsonStr);
      if finalDict.None? {
        return Err(DecodeError);
      }
      if !finalDict.value.JObj? {
        return Err(AttributeError);
      }
      var faqPage := PatchFaqPage(finalDict.value.fields, contentData);
      if faqPage.Err? {
        return faqPage;
      }
      r := PatchComparisonPage(faqPage.value, productData, productBData);
    }

    /** `run`, without the file writes: the three pages, built in order and named by output file. */
    method Run(templates: PageTemplates, codec: Codec, today: string)
      returns (r: Result<seq<(string, map<string, Json>)>, PageError>)
      ensures r == AssembledPages(templates, productData, productBData, contentData, codec, today)
    {
      var faqPage := ApplyTemplate(templates.faq, codec, today);
      if faqPage.Err? {
        return Err(faqPage.error);
      }
      var productPage := ApplyTemplate(templates.product, codec, today);
      if productPage.Err? {
        return Err(productPage.error);
      }
      var comparisonPage := ApplyTemplate(templates.comparison, codec, today);
      if comparisonPage.Err? {
        return Err(comparisonPage.error);
      }
      r := Ok([(PAGE_FILES[0], faqPage.value), (PAGE_FILES[1], productPage.value), (PAGE_FILES[2], comparisonPage.value)]);
    }
  }
}

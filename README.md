# Agentic content-generation pipeline, modelled in Dafny

The pipeline turns a flat `Key: value` description of a cosmetic product
into three JSON pages (FAQ page, product page, comparison page). It has four
agents:

- **Data ingestion** (`DataIngestion`). `_parse_raw_text` splits the text
  into lines and keeps, for every line with a colon, the cleaned key and the
  stripped value. `run` maps the eight known keys onto record fields,
  splitting the three list fields on `", "`, and validates the record.
- **Fictional product** (`FictionalProduct`). It builds the fixed competitor
  record ("Product B").
- **Content generator** (`ContentLogic`, `ContentGenerator`). It produces the
  summary sentence, sixteen categorised questions and six answered questions
  from fixed texts with product fields filled in. `ContentGeneratorAgent.run`
  stores them, one field after another, in a fresh `ContentLogicModel`.
- **Page assembler** (`PageAssembler`). `_apply_template` dumps a template to
  JSON text and replaces `{{product_data.key}}`, `{{product_b_data.key}}`,
  the summary token and the date token. It loads the text back and patches
  the FAQ blocks and the comparison points into the tree. `run` builds the
  three pages in order.

Support modules:

- `Wrappers`: `Option` and `Result`.
- `Text`: the Python string operations the agents use, on `seq<char>`
  (`strip`, `split`, `join`, `replace`, `in`, `lower`). It also holds a
  character count, which no agent calls: it only serves to state the
  quote-count properties of the substitution.
- `ProductModel`: the product record, its fields, `model_dump` and the
  required-fields validation.
- `Json`: the tree form of a JSON document, and an abstract codec between
  trees and text.

Python exceptions are modelled as `Err` results that name the exception
kind. Loops that update variables are methods, each proved equal to a
specification function. The properties are proved about those functions.

## Model

| member | source | states |
|---|---|---|
| DataIngestion.ParseRawText | agents/data_ingestion_agent.py:14-25 | The loop returns exactly the dictionary obtained by storing, in order, the entry each line of the stripped text contributes |
| DataIngestion.StoreStep | agents/data_ingestion_agent.py:24 | Storing one more line changes the dictionary only by that line's entry, if it has one |
| DataIngestion.SplitsAtFirstColon | agents/data_ingestion_agent.py:19-23 | A line is split at its first colon only: the key is cleaned, and the stripped value keeps every later colon |
| DataIngestion.ColonlessLineHasNoEntry | agents/data_ingestion_agent.py:19 | A line without a colon contributes nothing |
| DataIngestion.NoEntryIgnored | agents/data_ingestion_agent.py:18-24 | A line without an entry leaves the dictionary as it is, wherever it stands |
| DataIngestion.StoredKeys | agents/data_ingestion_agent.py:24 | A key is in the dictionary if and only if some line stores it |
| DataIngestion.LastOccurrenceWins | agents/data_ingestion_agent.py:24 | For a repeated key, the value from the last line storing it is kept |
| DataIngestion.BlankPaddingIgnored | agents/data_ingestion_agent.py:18 | Whitespace before or after the whole text does not change the lines |
| DataIngestion.SpacesIgnored | agents/data_ingestion_agent.py:22 | Whitespace around a key is dropped |
| DataIngestion.DotBulletIgnored | agents/data_ingestion_agent.py:22 | A leading "• " bullet is removed from a key |
| DataIngestion.StarBulletIgnored | agents/data_ingestion_agent.py:22 | A leading "* " bullet is removed from a key |
| DataIngestion.NoBulletsKept | agents/data_ingestion_agent.py:22 | The bullet removal leaves a key without bullet characters unchanged |
| DataIngestion.MapEntryInvertsRawKey | agents/data_ingestion_agent.py:42-64 | A raw key maps to a field if and only if it is that field's key. The value is split on ", " exactly for the three list fields |
| DataIngestion.FinalDataAdd | agents/data_ingestion_agent.py:49-64 | One more parsed pair adds its field to `final_data`, or nothing when its key is unknown |
| DataIngestion.AddEntry | agents/data_ingestion_agent.py:50-64 | The if/elif chain for one pair turns `final_data` for the pairs seen into `final_data` for those pairs plus the new one |
| DataIngestion.BuildFinalData | agents/data_ingestion_agent.py:48-64 | The loop over the parsed items builds exactly the field map of the known keys |
| DataIngestion.UnknownKeyDropped | agents/data_ingestion_agent.py:53-64 | A pair whose key is none of the eight known keys changes nothing |
| DataIngestion.Run | agents/data_ingestion_agent.py:36-71 | Given the file's text, `run` parses, maps and validates, and returns the specified result |
| DataIngestion.FinalDataValidates | agents/data_ingestion_agent.py:66-71 | Validation succeeds if and only if all eight known keys were parsed. Otherwise the error lists exactly the fields whose keys are missing |
| DataIngestion.FinalDataConforms | agents/data_ingestion_agent.py:49-68 | A field of `final_data` is present with the right shape if and only if its raw key was parsed |
| DataIngestion.ListFieldRoundTrip | agents/data_ingestion_agent.py:52 | A list field is never empty, and joining it with ", " gives back the raw value |
| DataIngestion.ValidatedFields | agents/data_ingestion_agent.py:49-68 | Each field of a validated record is its raw key's value. The list fields are the ", "-split values, non-empty, and re-join to the raw text |
| ProductModel.Validate | agents/data_ingestion_agent.py:67-71 | Validation succeeds if and only if every field is present with its declared shape. Otherwise it returns a non-empty list of exactly the fields that are not |
| ProductModel.Missing | agents/data_ingestion_agent.py:67-71 | The reported fields are exactly the listed fields that do not conform |
| ProductModel.DumpListsFields | agents/page_assembler_agent.py:28-29 | `model_dump` lists every field once, in declaration order, under its name and with its value |
| ProductModel.ValidateFieldMap | agents/fictional_product_agent.py:49-50 | Validating a record's own fields gives the record back |
| FictionalProduct.Run | agents/fictional_product_agent.py:15-57 | Validation always succeeds, and the result is exactly the literal record with the product name as its comparison name. Its name, concentration, skin types, key ingredients, three benefits and price are spelled out |
| FictionalProduct.IgnoresPrimary | agents/fictional_product_agent.py:12-57 | The competitor record does not depend on the primary product |
| ContentLogic.SummaryMentions | logic_blocks/content_logic.py:11-18 | The summary contains the product name, the concentration and the ", "-joined skin types verbatim |
| ContentLogic.SummaryHighlightsTopBenefit | logic_blocks/content_logic.py:10-18 | The summary ends with "focusing on **" + top benefit + "**.". The top benefit is the first benefit lower-cased, or "radiance" when there is none |
| ContentLogic.DefaultBenefitLower | logic_blocks/content_logic.py:10-17 | Lower-casing the fallback "radiance" leaves it unchanged |
| ContentLogic.CategorizedQuestions | logic_blocks/content_logic.py:22-57 | Succeeds if and only if there is a key ingredient; otherwise `IndexError` on `key_ingredients[0]`. On success: sixteen questions in the fixed category order 5/5/4/2 |
| ContentLogic.QuestionsInterpolate | logic_blocks/content_logic.py:32-52 | Questions 0, 1, 2, 6 and 14 contain the name, concentration, first key ingredient, name and price |
| ContentLogic.FaqAnswers | logic_blocks/content_logic.py:60-88 | Succeeds if and only if there are at least 13 questions, one benefit and two key ingredients. Answer k asks question 0, 1, 2, 5, 12 or 6. An error names a subscript past the end of its list |
| ContentLogic.AnswersInterpolate | logic_blocks/content_logic.py:70-79 | The first four answers contain the first benefit, the concentration, both key ingredients and the usage text |
| ContentLogic.FixedAnswers | logic_blocks/content_logic.py:82-85 | The fifth and sixth answers are the same fixed texts for every input |
| ContentGenerator.Generate | agents/content_generator_agent.py:21-46 | Succeeds if and only if there are two key ingredients and a benefit; otherwise the first `IndexError` raised. On success: the summary, 16 questions, and 6 pairs whose questions are taken from those questions |
| ContentGenerator.PairsAreGeneratedQuestions | agents/content_generator_agent.py:36-39 | Every published question is one of the generated questions |
| ContentGenerator.GeneratedCategories | agents/content_generator_agent.py:31-32 | The stored questions keep the fixed category order |
| ContentGenerator.ContentLogicModel.constructor | agents/content_generator_agent.py:25 | A new content record has all three fields empty |
| ContentGenerator.ContentGeneratorAgent.constructor | agents/content_generator_agent.py:17-19 | The agent keeps both products |
| ContentGenerator.ContentGeneratorAgent.Run | agents/content_generator_agent.py:21-46 | Creates a fresh record and assigns its three fields. Its contents are those specified for the primary product alone; errors are the same |
| PageAssembler.ProductDictKeys | agents/page_assembler_agent.py:28-34 | The primary table is the record's fields in order, then `skin_type_str` (", "-joined) and `benefits_str` ("; "-joined) |
| PageAssembler.ReprReadsBack | agents/page_assembler_agent.py:52-54 | A list element's `repr` is the escaped string between two equal quotes, and reading the body back gives the string |
| PageAssembler.UnescapeEscape | agents/page_assembler_agent.py:52-54 | Escaping a string for `repr` and reading it back gives the original |
| PageAssembler.ProductStepReplaces | agents/page_assembler_agent.py:41-49 | A primary key's step replaces every `_str` token when one occurs, and otherwise every plain token, with the quote-stripped value |
| PageAssembler.ProductBStepReplaces | agents/page_assembler_agent.py:52-54 | A comparison key's step replaces every `{{product_b_data.key}}` token with the quote-stripped `str(value)` |
| PageAssembler.ProductStepCanLeaveToken | agents/page_assembler_agent.py:46-49 | When the value itself holds the token, the token is still in the text after its step |
| PageAssembler.SkinTypeStrTakesSemicolonJoin | agents/page_assembler_agent.py:28-47 | `{{product_data.skin_type_str}}` is the `_str` token of `skin_type`, which comes first. So it receives the "; "-joined list, not the ", "-joined value stored under `skin_type_str` |
| PageAssembler.ProductPassKeepsQuotes | agents/page_assembler_agent.py:41-49 | The primary pass keeps the number of double quotes in the text |
| PageAssembler.ProductBPassKeepsQuotes | agents/page_assembler_agent.py:52-54 | The comparison pass keeps the number of double quotes in the text |
| PageAssembler.ProductPassesKeepQuotes | agents/page_assembler_agent.py:41-60 | Product values cannot close a JSON string early. Only a summary or date containing quotes can change the quote count |
| PageAssembler.SummaryInsertedVerbatim | agents/page_assembler_agent.py:57 | The summary block goes into the text as it is, without quote stripping |
| PageAssembler.SubstitutedWithoutTokens | agents/page_assembler_agent.py:41-60 | A dumped template without "{{" comes through the whole substitution unchanged |
| PageAssembler.PatchBlock | agents/page_assembler_agent.py:67-71 | An FAQ block must be an object (otherwise `AttributeError`). A planning block gains the question list and a published block the answer list; every other member of the block keeps its value, and other blocks are unchanged |
| PageAssembler.PatchBlocksEach | agents/page_assembler_agent.py:67-71 | The block loop succeeds if and only if every block is an object, and then patches each block independently |
| PageAssembler.FaqPatch | agents/page_assembler_agent.py:65-71 | A page that is not "faq" is unchanged. An FAQ page without `content_blocks` is a `KeyError` |
| PageAssembler.FaqPatchBlocks | agents/page_assembler_agent.py:65-71 | On an FAQ page with a block list: succeeds if and only if all blocks are objects; each block is replaced by its patch and nothing else changes |
| PageAssembler.PatchFaqPage | agents/page_assembler_agent.py:65-71 | The loop over the blocks computes the FAQ patch |
| PageAssembler.SetPointFieldEffect | agents/page_assembler_agent.py:75-78 | Setting a field of an object point changes that point's field and nothing else |
| PageAssembler.ComparisonPatch | agents/page_assembler_agent.py:74-78 | A page that is not "comparison_table" is unchanged |
| PageAssembler.ComparisonPatchEffect | agents/page_assembler_agent.py:74-78 | Succeeds if and only if the four lists are non-empty and points 0 and 2 exist and are objects. It sets exactly `glowboost` and `competitor` of points 0 and 2 to the first key ingredients and first benefits |
| PageAssembler.PatchComparisonPage | agents/page_assembler_agent.py:74-78 | The four assignments compute the comparison patch |
| PageAssembler.TemplateWithoutTokens | agents/page_assembler_agent.py:25-80 | If loading a dump gives back the tree, a template with no "{{" in its dump comes out as itself plus the structural patches |
| PageAssembler.CollectPages | agents/page_assembler_agent.py:86-90 | Either the three pages named faq.json, product_page.json and comparison_page.json in that order, or the first failing page's error |
| PageAssembler.PageAssemblerAgent.constructor | agents/page_assembler_agent.py:14-18 | The agent keeps its three inputs, and its output directory is "output/" |
| PageAssembler.PageAssemblerAgent.ApplyTemplate | agents/page_assembler_agent.py:20-80 | The two token loops, the summary and date replacements, the load and the patches compute the specified page |
| PageAssembler.PageAssemblerAgent.Run | agents/page_assembler_agent.py:82-90 | Builds the three pages in order, stopping at the first error |
| Text.Strip | agents/data_ingestion_agent.py:18-23 | The result neither starts nor ends with whitespace |
| Text.StripSplits | agents/data_ingestion_agent.py:22-23 | The input is the result with only whitespace removed before and after it |
| Text.StripIdempotent | agents/data_ingestion_agent.py:22-23 | Stripping twice is stripping once |
| Text.SplitAtFirst | agents/data_ingestion_agent.py:20 | `split(':', 1)`: the part before has no colon, and the parts rejoin to the line |
| Text.SplitAtFirstUnique | agents/data_ingestion_agent.py:20 | The split of `a + ":" + b` with a colon-free `a` is `(a, b)` |
| Text.SplitJoin | agents/data_ingestion_agent.py:18 | Joining the pieces of a split with the separator gives back the string |
| Text.SplitPiecesFree | agents/data_ingestion_agent.py:18 | No piece of a split contains the separator |
| Text.ReplaceIsSplitJoin | agents/page_assembler_agent.py:47 | `replace` is splitting on the pattern and joining with the replacement |
| Text.ReplaceAbsent | agents/page_assembler_agent.py:46-49 | Replacing a pattern that does not occur changes nothing |
| Text.ReplaceValueSurvives | agents/page_assembler_agent.py:47 | A replacement containing the pattern leaves the pattern in the result |
| Text.ReplaceKeepsCount | agents/page_assembler_agent.py:47 | Replacing a pattern without a character by a value without it keeps that character's count |
| Text.ReplaceInserts | agents/page_assembler_agent.py:57 | Replacing an occurring pattern puts the replacement into the result |
| Text.RemoveQuotes | agents/page_assembler_agent.py:47 | The result is the input with every double quote removed and all other characters kept in order |
| Text.Lower | logic_blocks/content_logic.py:17 | Same length; no upper-case letter is left; others are unchanged, and A-Z map to a-z |

## Left out

- Reading the input file and the `FileNotFoundError` re-raise (agents/data_ingestion_agent.py:30-34) are I/O. `DataIngestion.Run` is given the file's text instead.
- Writing the pages (agents/page_assembler_agent.py:92-96) is I/O. `PageAssemblerAgent.Run` returns the named pages instead.
- All `print` logging is left out; it does not affect any result.
- `date.today().isoformat()` is a clock read. The date is the `today` parameter.
- `json.dumps` and `json.loads` are a library's. They are the two functions of a `Codec`; only `TemplateWithoutTokens` assumes of them that loading a dump gives the tree back.
- JSON object member order, pretty printing and `ensure_ascii` are not modelled. JSON objects are maps.
- logic_blocks/data_models.py is not part of this model. Validation is "every field present with its declared shape", with no further pydantic constraints.
- `model_dump` field order is taken to be declaration order, with `comparison_name` last.
- A question's category is taken to dump as its string value.
- The new `ContentLogicModel`'s defaults are taken to be empty.
- templates/page_templates.py is not part of this model; templates are inputs.
- main.py is not part of this model.
- The assembler's content record is taken by value (`ContentGenerator.Content`), not as the shared mutable object.
- The in-place edits of the loaded tree (agents/page_assembler_agent.py:67-78) are modelled on values. This is unobservable here, since `json.loads` builds a tree that nothing else shares.
- An integer subscript on an object is `IndexKeyError(index)`, standing for Python's `KeyError(0)` or `KeyError(2)`. Exception messages are not modelled.
- Text.Lower: lower-cases ASCII letters only. Python's `str.lower` also maps non-ASCII letters.
- Text.Strip: strips the ASCII whitespace characters and the Unicode separators Python treats as whitespace, as listed in `Text.IsSpace`. No Unicode database is modelled.
- PageAssembler.ReprReadsBack: the modelled `repr` keeps non-ASCII characters as they are. Python escapes the non-printable ones.
- The source comments ask for "15+" questions (logic_blocks/content_logic.py:23, agents/content_generator_agent.py:31). The code produces 16, which `ContentLogic.CategorizedQuestions` states.
- No result promises that every `{{` token is gone after assembly. `_apply_template` does not check for leftover tokens (agents/page_assembler_agent.py:41-80), and a value holding a token keeps it in the page (`ProductStepCanLeaveToken`). The model proves the split/join meaning of each replacement and the token-free case instead.

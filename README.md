# COREP C 01.00 "Own Funds" reporting assistant: a verified model

This project models the core of a small reporting assistant for the UK
prudential return COREP, template C 01.00 ("Own Funds"). A user describes a
bank's capital in plain words. The assistant then does four things:

- It retrieves regulatory documents that are related to the question (`retriever.py`).
- It extracts five amounts from the question with regular expressions and builds a structured record (`llm_corep.py`). The five amounts are ordinary share capital, retained earnings, the intangibles deduction, AT1 instruments and Tier 2 instruments. The record holds a `summary` of totals and a list of `data_gaps`.
- It lays the record out as template rows 010, 020, 350, 120 and 200, formats the amounts, recomputes the totals and exports JSON, CSV or HTML (`template_mapper.py`).
- It validates the record against business and regulatory rules and writes a report with counts, a PASS/FAIL status and recommendations (`validator.py`).

The Dafny files are:

| file | module | models |
|---|---|---|
| `common.dfy` | `Common` | Python built-ins the core relies on: `Option` and `Result` values, dictionaries as insertion-ordered entry lists, `in` on strings, `lower()`, `str(int)`, `int()`/`float()` on digit strings, `replace(',', '')` and the `,` format specifier |
| `corep_record.dfy` | `CorepRecord` | the structured record shared by all four parts |
| `validation.dfy` | `Validation` | `ValidationFlag`, `validate_corep` and its six rule groups |
| `validation_report.dfy` | `ValidationReport` | `format_validation_flags`, `generate_validation_report`, `_generate_recommendations` |
| `template_mapper.dfy` | `TemplateMapper` | `map_to_template`, `format_currency`, `format_template_rows`, `calculate_summary`, `generate_template_export` |
| `corep_extractor.dfy` | `Extractor` | `SimpleCorepGenerator` and the module-level `generate_corep_output` wrapper |
| `retriever.dfy` | `Retriever` | `RegulatoryRetriever`: its parallel lists, the result loop of `search`, and `get_document_by_source` |
| `pipeline.dfy` | `Pipeline` | facts that span the parts: extractor output as the mapper and validator see it |

Code that loops or updates state in place is modelled as methods. These are
the validator's rule groups, the flag grouping, the export builders,
`calculate_summary`, the extractor's record building and the retriever class.
Each such method is proved equal to a specification function. The lemmas
state what those functions mean.

Some quirks of the source are modelled exactly as written:

- Rows are emitted in the order 010, 020, 350, 120, 200.
- The GBP prefix is the two characters "Â£", as the file is written.
- The references recommendation looks for `justification_refs` in the flag messages, so it is never given (unless a tier or component name itself contains `justification_refs`).
- The "validation passed" recommendation ignores info flags.
- The extractor scales every amount by 1000 when "bn" or "billion" appears anywhere in the query.
- The extractor reports a non-positive total as None, while the mapper recomputes it as a number.
- `search` lets negative indices through.
- The validator asks only whether `currency` and `reporting_date` are present, while the mapper reads their values. So a currency key holding None draws no warning, and the export prints amounts as "1,000.00 None".

## Model

| member | source | states |
|---|---|---|
| Validation.ToDict | validator.py:14-24 | the dictionary of a flag starts with its type name and message |
| CorepRecord.TextKey.Get | validator.py:308 | `data.get(key)` gives a string exactly when the key holds one; an absent key and None both read as None |
| CorepRecord.TextKey.GetOr | template_mapper.py:180 | `data.get(key, default)` gives the default only for an absent key; a key holding None reads as None |
| Validation.ToDictRoundTrip | validator.py:8-24 | reading a flag's dictionary back gives the flag; a falsy field or suggestion reads back as None |
| Validation.Count | validator.py:392-393 | the count of one kind of flag is at most the number of flags, and is zero exactly when no flag has that kind |
| Validation.MissingRequiredSpec | validator.py:92-101 | a missing-component warning is raised exactly for the required names absent from CET1; all of them are warnings |
| Validation.MissingRequiredOne | validator.py:92-101 | one required name gives one warning exactly when CET1 lacks its key, and none otherwise |
| Validation.MissingRequiredAppend | validator.py:92-101 | the warnings for a list of names are those of its parts, concatenated in order: one per absent name, in the listed order |
| Validation.NullAmountInfosSpec | validator.py:113-123 | an info is raised exactly for the CET1 components whose amount is None; all of them are infos |
| Validation.NullAmountInfosOne | validator.py:113-123 | one component gives one info exactly when its amount is None, and none otherwise |
| Validation.NullAmountInfosAppend | validator.py:113-123 | the infos for a tier are those of its parts, concatenated in order: one per None amount, in the tier's order |
| Validation.ValidateCet1 | validator.py:76-125 | the CET1 rule group: the required loop, the intangibles check and the None-amount loop, in that order |
| Validation.CheckRequired | validator.py:92-101 | the required-components loop |
| Validation.IntangiblesWarningIff | validator.py:102-111 | the intangibles warning is raised exactly when the deduction holds a positive amount |
| Validation.MissingComponentIff | validator.py:92-101 | a required component is reported missing exactly when its key is absent from CET1 |
| Validation.NullAmountInfoIff | validator.py:113-123 | a component gets a no-amount info exactly when its amount key holds None |
| Validation.HigherTierFlags | validator.py:127-207 | the AT1 and Tier 2 rule groups raise at most one flag, never an error, and none exactly when the instruments hold a non-zero number |
| Validation.ValidateCrossComponents | validator.py:209-250 | the cross-tier rule group: the CET1 scan stops at the first non-zero amount, and at most one flag is raised |
| Validation.NoCet1MeansZeroCet1Total | validator.py:216-223 | without a non-zero CET1 component, the recomputed CET1 total is 0 |
| Validation.CrossFlagsMeaning | validator.py:234-248 | the cross error means CET1 totals 0 while AT1 or Tier 2 is non-zero; the cross info means AT1 and Tier 2 total 0; the two never come together |
| Validation.MismatchFlagsSpec | validator.py:270-281 | a mismatch warning is raised exactly for the present summary keys that differ from the recomputed total |
| Validation.MismatchFlagsOne | validator.py:270-281 | one key gives one warning exactly when it is present and differs, and none otherwise |
| Validation.MismatchFlagsAppend | validator.py:270-281 | the warnings for a list of keys are those of its parts, concatenated in order: one per differing key, in the listed order |
| Validation.ValidateSummary | validator.py:252-283 | the summary rule group: a missing summary, or the key-by-key comparison |
| Validation.SummaryMismatchIff | validator.py:268-281 | a present total is flagged exactly when it is None or differs from the recomputed total |
| Validation.TierRefsWarningsSpec | validator.py:320-328 | within one tier, a warning is raised exactly for the components whose references are missing, None or empty |
| Validation.TierRefsWarningsOne | validator.py:320-328 | one component gives one warning exactly when it lacks references, and none otherwise |
| Validation.TierRefsWarningsAppend | validator.py:320-328 | the warnings for a tier are those of its parts, concatenated in order: one per component lacking references, in the tier's order |
| Validation.RefsWarningsSpec | validator.py:316-328 | across all tiers, a reference warning is raised exactly for the components lacking references |
| Validation.RefsWarningsOne | validator.py:318-328 | one tier gives exactly that tier's warnings |
| Validation.RefsWarningsAppend | validator.py:318-328 | the warnings for a list of tiers are those of its parts, concatenated in order: tier by tier, in the order of own_funds |
| Validation.RefsWarningsAreWarnings | validator.py:316-328 | the reference flags are all warnings |
| Validation.ValidateRegulatoryCompliance | validator.py:285-330 | the regulatory rule group: currency, date and template checks, then the nested reference scan |
| Validation.ValidateTierRefs | validator.py:320-328 | the inner loop of the reference scan |
| Validation.ValidateRefs | validator.py:318-328 | the outer loop of the reference scan, tier by tier |
| Validation.TopLevelFlagsIff | validator.py:289-314 | the currency and date flags are raised exactly when the key is absent, so a key holding None draws none; the template flag is raised exactly when the template is not "C 01.00", whether it is absent, None or another string |
| Validation.ValidateCorep | validator.py:26-74 | `validate_corep`: one error alone without own_funds, else the six groups in order |
| Validation.CrossFlags | validator.py:234-248 | the "only CET1" info and the "higher tier without CET1" error never come together: at most one cross flag |
| Validation.MissingComponentInjective | validator.py:97 | different missing components give different messages |
| Validation.TotalKeyNamesDistinct | validator.py:279 | different summary keys give different flag fields |
| Validation.Cet1Errors | validator.py:76-125 | the CET1 group raises an error only for a missing CET1 tier |
| Validation.CrossErrors | validator.py:242-248 | the cross group raises an error only for AT1 or Tier 2 capital without CET1 capital |
| Validation.SummaryRaisesNoErrors | validator.py:252-283 | the summary group never raises an error |
| Validation.RegulatoryRaisesNoErrors | validator.py:285-330 | the regulatory group never raises an error |
| Validation.ErrorCount | validator.py:26-74 | the exact number of errors: one for missing own_funds, else one for missing CET1 plus one for higher-tier capital without CET1 |
| Validation.HasErrorsIff | validator.py:26-74 | a record has an error exactly when own_funds or CET1 is missing, or AT1/Tier 2 capital has no CET1 capital |
| ValidationReport.AsWrittenKeyIsPlural | validator.py:350 | the group key is the flag's type with "s" appended |
| ValidationReport.GroupFlagsSpec | validator.py:346-359 | the three initial groups always exist, and every group present holds exactly the flags keyed to it, in order |
| ValidationReport.KeyInjective | validator.py:350 | different kinds of flag go to different groups, under the written keying and under the intended one |
| ValidationReport.SelectedCount | validator.py:346-359 | the group of one kind holds as many entries as there are flags of that kind |
| ValidationReport.NothingFiledUnderInfo | validator.py:346-359 | as written, nothing is ever filed under "info" |
| ValidationReport.FormatValidationFlags | validator.py:332-359 | `format_validation_flags`: the in-place grouping equals its specification, and each kind's group size is that kind's count |
| ValidationReport.RecommendationsIff | validator.py:388-413 | "Validation passed" is given, alone, exactly when there are no errors, no warnings and no references or amount mentions; info flags do not count |
| ValidationReport.RecommendationsGiven | validator.py:392-408 | each other recommendation is given exactly when its condition holds, with the counts in its text |
| ValidationReport.PassedDespiteInfo | validator.py:299-305 | a record whose only flag is the missing-date info still gets "Validation passed" |
| ValidationReport.NullAmountBringsRecommendation | validator.py:113-123 | a CET1 component whose amount is None always brings the amount-fields recommendation |
| ValidationReport.AmountsRecommended | validator.py:405-408 | one flag with "amount" in its message and a field is enough for the amount-fields recommendation |
| ValidationReport.NoAmountMentionsAmount | validator.py:120 | the no-amount message contains "amount" |
| ValidationReport.RefsRecommendationNeverGiven | validator.py:401-404 | the references recommendation is never given, because no message contains `justification_refs` (for records whose names contain no letter j) |
| ValidationReport.GroupSizeSelected | validator.py:374-379 | each count in the report is the size of the group filed under that key |
| ValidationReport.InfoCountAlwaysZero | validator.py:379 | as written, the report's info count is 0 whatever the flags |
| ValidationReport.InfoFlagLost | validator.py:379 | a record with an empty own_funds has an info flag, yet its report counts none |
| ValidationReport.IntendedReportCounts | validator.py:374-381 | filed under the intended keys, the report counts every kind, the counts add up to the total, and PASS means no error |
| ValidationReport.CountsAddUp | validator.py:374-379 | errors, warnings and infos add up to the number of flags |
| ValidationReport.AsWrittenReportCounts | validator.py:361-386 | as written, the error and warning counts are right, the info count is 0, and PASS means no error |
| ValidationReport.GenerateValidationReport | validator.py:361-386 | `generate_validation_report`: the total, error and warning counts, an info count of 0, and status PASS exactly when there is no error |
| TemplateMapper.RowFor | template_mapper.py:22-48 | a slot gives one row, with its code, its description and its amount, exactly when its tier and component are present |
| TemplateMapper.Pieces | template_mapper.py:16-50 | the mapping is the slots' rows in emission order, at most one per slot |
| TemplateMapper.MapToTemplate | template_mapper.py:4-50 | no own_funds gives no rows |
| TemplateMapper.MappedRowsSound | template_mapper.py:4-50 | every row stands for a present component: its code names a slot whose component maps to exactly that row |
| TemplateMapper.MappedRowsComplete | template_mapper.py:22-48 | every present component has its row in the mapping |
| TemplateMapper.MappedRowsOrdered | template_mapper.py:22-48 | the rows come in the order 010, 020, 350, 120, 200 |
| TemplateMapper.Decimal2RoundTrip | template_mapper.py:98-100 | a number printed with thousands separators and two decimals reads back as the number |
| TemplateMapper.FormatCurrencyRoundTrip | template_mapper.py:78-103 | the number inside a formatted amount reads back after the "Â£" prefix for GBP; otherwise it reads back before " " and the currency as printed, which is "None" for a currency key holding None |
| TemplateMapper.FormattedNumberIsNotNA | template_mapper.py:89-100 | a formatted number never reads "N/A" |
| TemplateMapper.FormatRow | template_mapper.py:65-74 | a formatted row keeps the row's number, description and amount, carries the currency, and reads "N/A" exactly for a missing amount |
| TemplateMapper.FormatTemplateRows | template_mapper.py:52-76 | `format_template_rows`: same length and order, and "N/A" exactly for missing amounts |
| TemplateMapper.SummaryFormula | template_mapper.py:128-160 | CET1 is ordinary plus retained minus intangibles, AT1 and Tier 2 are their instruments, and own funds is the sum; every missing or None amount counts 0 |
| TemplateMapper.CalculateSummary | template_mapper.py:105-166 | `calculate_summary` equals the zero-based totals |
| TemplateMapper.CsvLines | template_mapper.py:193-208 | the CSV has a header, one line per row in order, then a blank line, "SUMMARY" and four total lines |
| TemplateMapper.CsvRowRoundTrip | template_mapper.py:196 | a CSV row line splits back into its four fields, and the amount field reads back as the amount |
| TemplateMapper.AmountTextRoundTrip | template_mapper.py:196 | `str(amount)` has no comma and reads back |
| TemplateMapper.MappedRowsHaveNoComma | template_mapper.py:28-48 | row codes and descriptions contain no comma, so CSV lines split cleanly |
| TemplateMapper.CsvBody | template_mapper.py:195-196 | one CSV line per formatted row, in order |
| TemplateMapper.CsvTotals | template_mapper.py:199-206 | a blank line, "SUMMARY" and the four total lines: six lines |
| TemplateMapper.BuildCsv | template_mapper.py:193-208 | the CSV branch joins exactly the CSV lines with newlines |
| TemplateMapper.BuildHtml | template_mapper.py:210-241 | the HTML branch builds the page head, the table rows, the middle, the summary items and the end |
| TemplateMapper.BuildTableRows | template_mapper.py:222-223 | the table-row loop gives one row per formatted row, in order |
| TemplateMapper.BuildListItems | template_mapper.py:232-233 | the summary loop gives one item per total, in key order |
| TemplateMapper.GenerateTemplateExport | template_mapper.py:168-244 | fails exactly for a format other than json, csv and html, naming it; otherwise gives the export of the mapped rows and recomputed totals, with "GBP", "C 01.00" and "N/A" standing in only for absent keys |
| Common.IntTextRoundTrip | template_mapper.py:196 | `str(n)` of an integer reads back as that integer |
| Common.Lower | llm_corep.py:19 | `lower()` keeps the length and lowers each character in place |
| Common.RemoveChar | llm_corep.py:21 | `replace(',', '')` leaves no comma |
| Common.GroupedRoundTrip | template_mapper.py:98 | removing the separators from a number printed with `,` gives back its digits and value |
| Extractor.ExtractAmount | llm_corep.py:17-30 | no match gives None; when the query mentions billions, any amount found is a multiple of 1000 |
| Extractor.ExtractDigitsAmount | llm_corep.py:19-27 | any capture whose digits, separators removed, spell n reads back as n, times 1000 when the query mentions billions; this covers "1000", "1,000" and "1,0000" |
| Extractor.ExtractPlainAmount | llm_corep.py:19-27 | a capture without separators reads back as the number it spells, times 1000 when the query mentions billions |
| Extractor.ExtractGroupedAmount | llm_corep.py:19-27 | a capture written with thousands separators reads back as its amount, times 1000 when the query mentions billions |
| Extractor.BillionsAnywhereScale | llm_corep.py:25-26 | "bn" anywhere in the query, in any letter case ("bn", "Bn", "bN", "BN") and inside any word, scales every amount by 1000 |
| Extractor.ExtractAll | llm_corep.py:38-42 | each slot's amount is `extract_amount` with that slot's pattern |
| Extractor.Reported | llm_corep.py:95-98 | a total is reported as a number exactly when it is positive, and as None otherwise |
| Extractor.ReportedSummary | llm_corep.py:94-99 | every summary key holds its total as reported |
| Extractor.AmountOf | llm_corep.py:58 | an amount found is stored as that number, otherwise None |
| Extractor.ExtractedSlots | llm_corep.py:55-92 | every slot holds its extracted amount, its row code, the references and an explanation |
| Extractor.ExplanationIff | llm_corep.py:61 | the explanation is "Extracted from user query" exactly when the amount is a number other than 0 |
| Extractor.DataGapsSpec | llm_corep.py:102-115 | gaps are recorded for ordinary shares and for retained earnings, each exactly when that amount is None or 0, in that order, and never for other fields |
| Extractor.SourcesSpec | llm_corep.py:60 | the list of sources is built exactly when every document has one, in order; otherwise the KeyError's message is the error |
| Extractor.FirstTwo | llm_corep.py:60 | `retrieved_docs[:2]` is the first two documents, or all when fewer |
| Extractor.GenerateRecord | llm_corep.py:32-117 | `generate_corep_output` builds the record, then appends the data gaps |
| Extractor.GenerationFailsIff | llm_corep.py:60 | generation fails exactly when one of the first two documents has no source |
| Extractor.FirstTwoSources | llm_corep.py:60 | the references are the first two documents' sources, in order |
| Extractor.ReferencesAreFirstTwoSources | llm_corep.py:60-88 | every component cites the sources of the first two documents |
| Extractor.FallbackSlots | llm_corep.py:137-153 | in the error record every slot is present with only a None amount, and every total is None |
| Extractor.GenerateCorepOutput | llm_corep.py:122-153 | the wrapper returns the generator's record, or the error record built from the exception; either way it has template C 01.00, GBP and own_funds |
| Retriever.Preview | retriever.py:92 | the preview is the text's first 1000 characters |
| Retriever.TextsOf | retriever.py:37 | the texts list holds the documents' texts, in order |
| Retriever.SourcesOf | retriever.py:38 | the sources list holds the documents' sources, in order |
| Retriever.PyIndex | retriever.py:91-94 | Python indexing: valid from -n to n-1, and a negative index counts from the end |
| Retriever.RegulatoryRetriever.constructor | retriever.py:13-53 | the lists come from the cache of an earlier run, or else from the documents; they are parallel |
| Retriever.RegulatoryRetriever.Search | retriever.py:87-97 | the result loop equals its specification: pairs with `idx < len(documents)` pass, and an index outside the lists ends the search with IndexError |
| Retriever.RegulatoryRetriever.GetDocumentBySource | retriever.py:99-107 | returns None exactly when no document has the source, and otherwise the first document that has it |
| Retriever.FailureStops | retriever.py:87-97 | once a pair raises IndexError, the search ends with that error |
| Retriever.SearchResultsAppend | retriever.py:87-97 | the search as written emits results in the index's order: an answer split in two gives the first part's results followed by the second's, and fails when either part does |
| Retriever.CurrentSearchFailsIff | retriever.py:87-97 | with lists built from the given documents, the search fails exactly when some index is below minus the number of documents |
| Retriever.IntendedSearchSpec | retriever.py:87-97 | the intended search gives at most one result per pair, and a result exactly when it is the document some pair names, with that pair's distance |
| Retriever.IntendedSearchOne | retriever.py:89-95 | one pair gives the document its index names, with its distance, or nothing when the index names no document |
| Retriever.IntendedSearchAppend | retriever.py:87-97 | the intended results follow the index's order pair by pair: the results of an answer split in two are those of the first part followed by those of the second |
| Retriever.SearchAgreesOnNaturalIndices | retriever.py:87-97 | on indices that are not negative, the search as written and the intended search agree |
| Retriever.PaddingReturnsLastDocument | retriever.py:89 | as written, the index's padding label -1 returns the last document; the intended search returns nothing |
| Pipeline.ExtractedTotalsAgree | template_mapper.py:105-166 | the mapper's recomputation of an extracted record gives the extractor's own totals |
| Pipeline.ExtractedSummary | llm_corep.py:45-48 | an extracted record's summary is the mapper's totals, with non-positive ones replaced by None |
| Pipeline.ExtractedMismatchIff | validator.py:268-281 | the validator flags a total of an extracted record exactly when that total is not positive |
| Pipeline.ExtractedRows | template_mapper.py:16-50 | an extracted record lays out as all five rows in template order, each under the row code the extractor stored and with the extracted amount |
| Pipeline.ExtractedIntangiblesWarned | validator.py:102-111 | every non-zero intangibles amount the extractor finds draws the "should be negative" warning |
| Pipeline.FallbackPasses | validator.py:361-386 | the error record of a failed generation raises no error and the report passes it |
| Pipeline.PassesWithoutInstruments | validator.py:26-74 | a record with a CET1 tier and no AT1 or Tier 2 capital raises no error |
| Pipeline.FallbackMismatches | validator.py:268-281 | every total of the error record draws a mismatch warning (None against a recomputed 0) |
| Pipeline.NoneCurrencyUnflaggedYetPrinted | validator.py:290-296 | a currency key holding None draws no currency warning, yet the export prints every amount followed by " None"; an absent key draws the warning, and amounts print in pounds |
| Pipeline.DocsOf | retriever.py:90-95 | search results, read as documents, keep their sources |
| Pipeline.SearchResultsNeverFallBack | llm_corep.py:60 | generation from search results never fails, and every component cites the first two results |

## Left out

- The embedding model, the FAISS index and the cache file's pickling are left out. The index's `(idx, distance)` answer is a parameter of `Search`. The cache appears only as the documents an earlier run wrote it from. Lazy loading of the model in `search` is also left out.
- The regular expressions of the extractor are left out. Each pattern's first match is an oracle, `Extractor.Matcher`, that gives the captured digits; every extractor lemma holds for any oracle.
- Floating point is left out. Amounts are integers, and `float()` of a digit string is its integer value. Python would print a float such as "142.0" inside messages and CSV lines, where the model prints "142".
- `Extractor.ExtractAmount`: Python's `float()` also accepts non-ASCII decimal digits. The model reads ASCII digits only, and treats any other capture as a ValueError.
- `Common.Lower` lowers ASCII letters only; Unicode case mapping is left out.
- Non-dict values are left out. In the model every tier and component is a dictionary, so the `isinstance` guards always pass. Likewise an `own_funds` or `summary` key holding None is not represented: `Record.ownFunds` and `Record.summary` are `Option`s whose `None` means the key is absent. The source raises TypeError there (validator.py:48-51, 265-272; template_mapper.py:19-22, 125-128).
- `ValidationReport.RefsRecommendationNeverGiven` is stated for records whose tier names, component names and template contain no letter j. The proof goes by that letter, and a name could itself contain `justification_refs`.
- Byte-exact JSON layout is left out. The json export is a datatype with the exported fields, not the `json.dumps` text. The HTML page keeps its text but not its exact indentation whitespace.
- `ValidationReport.GenerateValidationReport` models the report as written, with the plural key for info flags. The intended keying is proved separately (see Findings).
- `Retriever.RegulatoryRetriever.Search` models the search as written. The intended filter is the separate function `Retriever.IntendedSearch`.
- The entry points are left out: the API server (`main.py`), the UI (`app.py`, `serve_frontend.py`), document loading (`data_loader.py`) and the alternative LLM backend. So are the connection test functions and the `__main__` demos.

## Findings

| source | as written | input that shows it | evidently intended | confidence | as-written member | corrected member |
|---|---|---|---|---|---|---|
| validator.py:348-357 with validator.py:379 | info flags are filed under the key `f"{type}s"`, which is "infos", but the report reads the "info" group, which stays empty | a record with `own_funds` empty gives the info "No AT1 capital reported", yet the report says `info: 0` | info flags are filed under "info", and the report counts them | not executed | ValidationReport.InfoFlagLost | ValidationReport.IntendedReportCounts |
| retriever.py:89 | the guard `idx < len(self.documents)` lets through the label -1, which the index uses to pad when asked for more neighbours than it holds; Python reads `sources[-1]` as the last document | one document and the index answer `[(-1, d)]`: the search returns that document with the padding distance | only indices from 0 to n-1 name documents | not executed | Retriever.PaddingReturnsLastDocument | Retriever.IntendedSearchSpec |

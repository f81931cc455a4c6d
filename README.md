# Receipt text parser

A Dafny model of the text-to-record parser of a receipt-scanning app, `ocr/parser.py`.
OCR text goes in and a receipt record comes out. The record holds the store name, the date, the purchased items with their
amounts, the total, and a flag saying whether the items add up to the total. The model has two parts:

- `clean_price` (module `Amounts`) deletes currency signs, the unit word `円`, thousands
  separators and whitespace from a price token, reads what is left as a number, and gives 0
  when it does not read as one.
- `parse_receipt_text` (module `Parser`) works in these steps:
  - it splits the text into stripped, non-blank lines;
  - it takes the first date-shaped substring of the whole text;
  - it picks the store from the first three lines;
  - it reads the total from total lines (the last one wins) and an item from every other line that ends in a price;
  - it checks the item sum against the total and uses the sum when no total was found.

Layout:

- `text.dfy` (`Text`): the Python string operations the parser uses. These are `str.isspace`, `strip`,
  `split('\n')`, substring tests and `lower`.
- `patterns.dfy` (`Patterns`): the three regular expressions.
  - Each is written as a matcher that follows the backtracking order of Python's `re`.
  - Beside it stands a declarative description of the language it accepts.
  - A proof shows the matcher picks exactly the match `re` picks. For `re.search` that is the leftmost match. The lazy `(.*?)` gives the shortest name, and the greedy steps give the longest date.
  - For the item pattern this holds on lines without a newline, which are the only lines the parser passes. There Python's `.` (which does not match `\n`) and `$` (which also matches before a final `\n`) behave like any character and the end of the line.
- `amounts.dfy` (`Amounts`): `clean_price` over whole-number amounts, and its round trip with
  receipt-style renderings such as `¥1,200円`.
- `parser.dfy` (`Parser`): the record types, and one specification function per record field
  with `Receipt` assembling them.
  - The imperative `ParseReceiptText` follows the source's loops, with the early `break`, the `continue` and the appends. It is proved to return `Receipt(text)`.
- `receipt_facts.dfy` (`ReceiptFacts`): the tie-break rules and end-to-end properties of
  `Receipt`.

Amounts are natural numbers. Every token the parser passes to `clean_price` is a run of `[0-9,]`.
For such a token whose value is below 2^53, the Python float it returns is exactly that whole number.
Summing and comparing those floats is exact integer arithmetic while the values stay below 2^53.

## Model

| member | source | states |
|---|---|---|
| Text.Strip | ocr/parser.py:10 | `line.strip()` is empty exactly when the line is all whitespace; otherwise it neither starts nor ends with whitespace |
| Text.StripRemovesOnlyEnds | ocr/parser.py:10 | `strip()` removes a whitespace prefix and a whitespace suffix and keeps the middle of the line unchanged |
| Text.JoinSplit | ocr/parser.py:10 | joining the pieces of `text.split('\n')` with newlines gives back the text |
| Text.SplitJoin | ocr/parser.py:10 | splitting a newline-join of newline-free pieces gives back the pieces, so the split is the inverse of the join |
| Text.NonBlank | ocr/parser.py:10 | the kept lines are non-empty and stripped, at most one per piece, and there are none exactly when every piece is blank |
| Text.NonBlankOne | ocr/parser.py:10 | a single piece is kept, as its `strip()`, exactly when it is not blank |
| Text.NonBlankAppend | ocr/parser.py:10 | the kept lines of two blocks of pieces are those of the first followed by those of the second, so the filter keeps the pieces' order |
| Text.LinesOfJoin | ocr/parser.py:10 | the lines of a text made of newline-free pieces joined by newlines are exactly the non-blank pieces, stripped, in order |
| Text.LinesEmptyIffBlank | ocr/parser.py:10 | the text has no lines exactly when every character of it is whitespace |
| Parser.LowerTotalAt | ocr/parser.py:27 | `line.lower()` holds `total` at a position exactly when the line holds `total` there with each letter in either case |
| Parser.IsTotalLineIff | ocr/parser.py:27 | a line is a total line exactly when it contains `合計`, `合 計`, or `total` in any mix of upper and lower case |
| Patterns.SearchPrice | ocr/parser.py:28 | the price search fails exactly when no `[0-9,]` character occurs; otherwise its group is the whole `[0-9,]` run starting at the first such character |
| Patterns.ItemTailIff | ocr/parser.py:32 | for a fixed name end, the matcher reports amount span (d, e) exactly when the line splits there into name, separator `\s+[¥￥]?\s*`, amount `[0-9,]+` and an optional final `円`; that split is unique |
| Patterns.MatchItemSpec | ocr/parser.py:32 | a match is such a split with the shortest possible name (the lazy `(.*?)`), and there is no match exactly when no split exists |
| Patterns.ItemNameIsStripped | ocr/parser.py:32-34 | on a stripped line group 1 has no surrounding whitespace, so the `.strip()` of the name changes nothing |
| Patterns.DateAt | ocr/parser.py:11 | the date pattern matches at a position exactly when a date shape starts there, and the engine's match is the longest such shape |
| Patterns.SearchDate | ocr/parser.py:17 | the search returns the leftmost position where a date shape starts, with its longest match, and fails only when no position has one |
| Amounts.RemoveMarks | ocr/parser.py:5 | the substitution leaves no `¥ ￥ , 円` or whitespace and keeps only characters of the token |
| Amounts.CleanPrice | ocr/parser.py:4-7 | a token with no ASCII digit cleans to 0 (the `ValueError` fallback) |
| Amounts.CleanPriceOfDecimal | ocr/parser.py:4-7 | cleaning the plain decimal rendering of an amount gives the amount back |
| Amounts.CleanPriceIgnoresMarks | ocr/parser.py:5 | signs, unit words, commas and whitespace placed around a token do not change its amount |
| Amounts.CleanPriceOfReceiptAmount | ocr/parser.py:4-7 | an amount written with thousands separators cleans to that amount in three forms: plain, as `¥…円`, and as `￥…` |
| Amounts.CleanPriceYenExample | ocr/parser.py:4-7 | `¥1,200円` cleans to 1200 |
| Amounts.CleanPriceFallbackExamples | ocr/parser.py:6-7 | `n/a`, the empty token and a token of commas only clean to 0 instead of raising |
| Parser.DateOf | ocr/parser.py:17-18 | the date is the sentinel `日付不明` exactly when no date shape occurs anywhere in the text |
| Parser.ItemsOfFacts | ocr/parser.py:32-40 | every item carries the given date and store and a name longer than one character free of ignored words, and comes from a non-total line whose item entry is that name and amount |
| Parser.Receipt | ocr/parser.py:42-49 | the record is consistent exactly when its total equals its item sum; a total that differs from the sum is the stated total |
| Parser.SumAmounts | ocr/parser.py:42 | the loop total is the sum of the item amounts |
| Parser.PickStore | ocr/parser.py:20-24 | the store loop with its early exit returns the specified store |
| Parser.ScanLines | ocr/parser.py:26-40 | the pass over the lines returns the stated total and the items, in line order, as specified |
| Parser.ParseReceiptText | ocr/parser.py:9-49 | the imperative parser returns exactly the specified record |
| ReceiptFacts.StoreOfSpec | ocr/parser.py:20-24 | the store is the first of the first three lines longer than two characters without two adjacent digits, and `不明な店舗` when none of them qualifies |
| ReceiptFacts.LastTotalWins | ocr/parser.py:26-30 | the last total line in which the price search finds a `[0-9,]` run sets the stated total; total lines with no `[0-9,]` character do not reset it |
| ReceiptFacts.CommaTotalResets | ocr/parser.py:26-30 | a total line whose first `[0-9,]` run holds no digit (such as `Total, tax incl.`) states 0 and resets the stated total to 0 |
| ReceiptFacts.CommaTotalExample | ocr/parser.py:26-30 | `合計 500` followed by `Total, tax incl.` gives a stated total of 0 |
| ReceiptFacts.StatedTotalSkip | ocr/parser.py:26-30 | lines in which no total is found leave the stated total as it was after the earlier lines |
| ReceiptFacts.NoTotalLine | ocr/parser.py:26-30 | with no line stating a total the stated total is 0 |
| ReceiptFacts.ReceiptTotalRule | ocr/parser.py:42-44 | with a positive stated total the record keeps it and is consistent exactly when the item sum equals it; otherwise the total is the item sum and the record is consistent |
| ReceiptFacts.ItemsOfAppend | ocr/parser.py:26-40 | the items of two blocks of lines are the items of the first block followed by those of the second, so items follow line order |
| ReceiptFacts.ItemsOfOneLine | ocr/parser.py:27-30 | a total line never produces an item |
| ReceiptFacts.ReceiptItemsFacts | ocr/parser.py:37-40 | every item of the record carries the record's own date and store and a name longer than one character free of ignored words, and comes from a non-total line of the text |
| ReceiptFacts.CleanPriceOfAmountToken | ocr/parser.py:39 | a `[0-9,]+` token cleans to the number its digits spell, and to 0 when it is only commas |
| ReceiptFacts.ItemLineRoundTrip | ocr/parser.py:32-40 | a printed item line (a non-empty stripped name not ending in a yen sign, whitespace with at most one yen sign, amount with thousands separators, optional `円`) has the item entry of that name and amount, and none when the name is one character or holds an ignored word; the line yields that item unless it is a total line, which a name holding `total`, `合計` or `合 計` makes it |
| ReceiptFacts.TotalLineRoundTrip | ocr/parser.py:27-29 | a line with `合計` and no `[0-9,]` before a printed amount states that amount, whatever follows the amount |
| ReceiptFacts.DateOfLeftmostLongest | ocr/parser.py:17-18 | the date is the verbatim text of the leftmost, longest date-shape match, or the sentinel |
| ReceiptFacts.BlankReceipt | ocr/parser.py:9-49 | an empty or whitespace-only text gives both sentinels, no items, total 0 and the consistent flag |

## Left out

- `app.py` (image preprocessing) is not part of this model. It is a chain of OpenCV calls and a floating-point angle fold.
- `ocr/reader.py` is not part of this model. It is glue around the easyocr and pytesseract engines and a Streamlit cache, whose results cannot be specified.
- `utils/gemini_engine.py` is not part of this model. It is a network client to a hosted language model with JSON scraping of its reply.
- `utils/csv_export.py` is not part of this model. It is a pandas CSV serialisation wrapper.
- CleanPrice: only whole numbers are modelled. Python's `float()` also accepts decimals, signs, exponents, `inf`/`nan`, underscores and non-ASCII digits, and all of these clean to 0 in the model. The parser only ever passes `[0-9,]+` tokens. For those the model and `float()` agree when the value is below 2^53. Above that, `float()` rounds, and from about 309 digits it gives `inf`; the model keeps the exact value.
- Receipt: amounts are exact naturals. The source sums Python floats, which are exact only below 2^53.
- Patterns.DateAt, Patterns.HasDigitRun, ReceiptFacts.StoreOfSpec: `\d` is modelled as the ASCII digits and the full-width digits `０`–`９`, in both the date pattern and the store test `\d{2,}`. Digits of other scripts, which Python's `\d` also matches, are not modelled. So a first line such as `店舗१२` is rejected as the store name by Python but accepted by the model.
- Text.Lower: `lower()` is modelled as an ASCII fold that keeps the length. Python also lowercases non-ASCII letters, and a few of them (such as `İ`) become two code points. No non-ASCII code point lowercases to a letter of `total`, so the total-line test of `Parser.IsTotalLineIff` is unaffected.
- The dictionary keys of the returned record (`店舗名`, `日付`, `商品一覧`, `合計金額`, `整合性OK`, and per item `日付`, `店舗名`, `商品名`, `金額`) become fields of the `ReceiptRecord` and `LineItem` datatypes.

# Spinwheel liabilities demo: a verified model of its core rules

The Spinwheel demo is a browser page. A client types their identity data
into an intake form and answers knowledge-based authentication (KBA)
questions. The page then shows the client's liabilities as a collapsible
JSON tree, and can turn them into a paginated PDF credit report. This
project models the rules inside that page and proves them:

- **Intake validation** (`validateAndSubmit`, `initiateKBAConnection`).
  All eight trimmed fields must be filled, the SSN must hold nine digits,
  the ZIP must be five digits, and the address must fit in 50 characters.
  The check order and error messages match the source. The stored client
  profile and the connection request are built as the source builds them
  (module `Intake`).
- **KBA answer collection** (`submitKBAAnswers`). A loop over the question
  containers fills the answers map, clears `allAnswered` and marks each
  unanswered question with the error class. The outcome depends on the
  answer key (module `Kba`, over an array of error marks).
- **Summary totals**. `reduce` sums the balances and minimum payments, and
  a missing amount counts as zero. The sandbox data set's stated summary is
  proved equal to the computed one (module `Liabilities`, amounts in
  cents).
- **HTML escaping and JSON rendering** (`escapeHtml`, `createEnhancedJson`).
  The renderer is a recursive function. A recursive method with loops,
  written like the source, is proved equal to it (modules `HtmlEscape` and
  `JsonRender`).
- **The JSON viewer** (`displayJsonPopup`'s auto-expand, Expand All,
  Collapse All and `searchInJson`). This is a class holding:
  - the text leaves of the rendered tree in document order;
  - an array of `active` flags, one per collapsible;
  - an array of highlight flags, one per leaf;
  - the scroll target (module `JsonViewer`).
- **PDF layout** (`generateMockPdfReport`). The PDF library becomes a class
  holding:
  - a list of pages of text commands;
  - the current page, font size and text colour;
  - the report's vertical cursor `yPos`.

  The body is a sequence of blocks. Each block reserves its space with
  `checkNewPage` and then writes its texts from the cursor down; a block
  whose space would cross `maxY` starts a new page at the top margin. The
  generator is proved to lay the report out exactly as these blocks
  prescribe. It uses the corrected `checkNewPage` of "## Findings", and for
  that generator it is proved that every body text is black and inside the
  body area, every page ends with its own "Page i of N" footer, the body
  text read page by page is exactly the report's lines, and a liability
  never straddles two pages (module `Report`).
- **The numeric key filter** `onlyNumbers` of `script.js` (module
  `KeyFilter`).

Supporting modules:

- `Wrappers`: `Option` and `Result`.
- `Numbers`: decimal numerals, en-US digit grouping, formatting of amounts.
- `JsStrings`: JavaScript's `trim`, `replace(/\D/g, '')`, `toLowerCase`,
  `includes` and single-match `replace`.

Things the page gets from the browser are parameters:

- the clock (`Date.now()`);
- the locale-formatted date strings;
- whether the connection returned an answer key.

## Model

| member | source | states |
|---|---|---|
| Numbers.NatToString | app.js:979 | A non-negative number prints as a non-empty string of decimal digits that starts with `0` only for zero |
| Numbers.ParseNatToString | app.js:1162 | Reading back the printed numeral gives the number (printing is injective) |
| Numbers.NatToStringInjective | app.js:1162 | Two numbers with the same numeral are equal |
| Numbers.GroupThousands | app.js:1234 | A grouped numeral holds only digits and commas, with a comma exactly at every fourth place counted from the right, so never a leading comma |
| Numbers.UngroupGroupThousands | app.js:1234 | Removing the thousands separators of a grouped amount gives the plain numeral back |
| Numbers.FormatAmount | app.js:1234 | A formatted amount is never empty, starts with `-` exactly when the amount is negative, and otherwise holds only digits, commas and the decimal point |
| Numbers.FormatAmountUngrouped | app.js:1234 | The only commas in a formatted amount are grouping commas: without them it is the sign, the numeral of the whole dollars and the fraction |
| Numbers.FormatWholeDollars | app.js:1258 | A whole number of dollars is printed with grouping and no fraction |
| JsStrings.Trim | app.js:1034-1041 | Trimming never lengthens a value, and a non-empty result neither starts nor ends with JavaScript whitespace |
| JsStrings.TrimEmptyIff | app.js:1034-1044 | A trimmed value is empty exactly when every character of the raw value is JavaScript whitespace |
| JsStrings.TrimIdempotent | app.js:1034-1041 | Trimming a trimmed value changes nothing |
| JsStrings.TrimSlice | app.js:1034-1041 | `trim` returns a contiguous slice with whitespace-free ends, and only whitespace is cut |
| JsStrings.DigitsOnly | app.js:1050 | Stripping non-digits leaves only digits and never lengthens the text |
| JsStrings.DigitsOnlyAppend | app.js:82 | Stripping non-digits distributes over concatenation |
| JsStrings.DigitsOnlyOfDigits | app.js:82 | A value that is all digits is left unchanged by the strip |
| JsStrings.DigitsOnlyOfTrim | app.js:82 | Stripping non-digits from the trimmed SSN (validation) or the raw SSN (request) gives the same digits |
| JsStrings.Lower | app.js:833 | Lower-casing maps each character on its own and keeps the length |
| JsStrings.LowerAppend | app.js:833 | Lower-casing distributes over concatenation |
| JsStrings.Includes | app.js:833 | `includes` holds exactly when the pattern occurs at some position |
| JsStrings.IncludesWithin | app.js:833 | A pattern found inside the middle of a text is found in the whole text |
| JsStrings.ReplaceFirstPrefix | app.js:273 | Replacing the first occurrence of a prefix with nothing yields the rest |
| HtmlEscape.EscapeChar | app.js:1005-1012 | Each reserved character becomes an `&...;` reference, every other character is copied, and no raw `<`, `>`, `"` or `'` remains |
| HtmlEscape.EscapeHtml | app.js:1004-1013 | The escaped text holds no raw `<`, `>`, `"` or `'` and is never shorter than the input |
| HtmlEscape.UnescapeEscape | app.js:1004-1013 | Decoding the escaped text gives back the original, so escaping loses nothing |
| HtmlEscape.EscapeIdentityIff | app.js:1004-1013 | Escaping leaves a text unchanged exactly when it has no reserved character |
| HtmlEscape.EscapeAppend | app.js:1012 | Escaping works character by character: it distributes over concatenation, so order is kept |
| JsonRender.Render | app.js:950-1001 | Whatever the value, leaf or container, the markup starts with the `<` of a tag and ends with the `>` of a tag; what lies between is fixed by `CreateEnhancedJson` and the row lemmas below |
| JsonRender.StringLeafDecodes | app.js:956 | A string's span holds, between its two quotes, a text with no raw quote that decodes back to the string, so different strings never render alike |
| JsonRender.CreateEnhancedJson | app.js:950-1001 | The recursive, loop-accumulating renderer produces exactly the markup of `Render` |
| JsonRender.ArrayHtml | app.js:961-1001 | An array renders as the `[]` token when empty, and otherwise exactly as `Render` lays out the opened container around its rows |
| JsonRender.ObjectHtml | app.js:961-1001 | An object renders as the `{}` token when it has no keys, and otherwise exactly as `Render` lays out the opened container around its rows |
| JsonRender.ArrayRowsHtml | app.js:976-983 | The loop over array elements produces exactly the array's rows |
| JsonRender.ObjectRowsHtml | app.js:985-993 | The loop over object keys produces exactly the object's rows |
| JsonRender.ArrayRowHtml | app.js:974-981 | The callback for element i writes that element's row: its index label, its markup, a comma unless it is last, and the closing tag |
| JsonRender.ObjectRowHtml | app.js:985-991 | The callback for key i writes that member's row: the escaped quoted key, the value's markup, a comma unless it is last, and the closing tag |
| JsonRender.BaseCaseTokens | app.js:951-967 | `null`, `[]`, `{}` and a string have their fixed markup, with the string escaped and in quotes |
| JsonRender.ArrayRowsInOrder | app.js:969-983 | A non-empty array yields one row per element in index order; row i is labelled i, holds the element's markup, and has a comma span exactly when it is not the last |
| JsonRender.ObjectRowsInOrder | app.js:984-993 | A non-empty object yields one row per key in key order; each key is escaped and quoted, and a comma span follows every row but the last |
| JsonRender.RenderEndsWithoutComma | app.js:950-1001 | No value's markup, leaf or container, ends in a comma span: eight characters from its end, where the comma of `,</span>` would be, there is none |
| JsonRender.ArrayRowComma | app.js:976-982 | Row i of an array ends with the comma span followed by the row's `</div>` exactly when i is not the last index |
| JsonRender.ObjectRowComma | app.js:986-992 | Row i of an object ends with the comma span followed by the row's `</div>` exactly when key i is not the last key |
| JsonViewer.Quote | app.js:956 | A string leaf shows the value between two quote characters |
| JsonViewer.LeavesLedByOwnIcon | app.js:966-971 | A value always has a text leaf; the first is a toggle icon exactly when the value is a non-empty container, and then it is that container's own button |
| JsonViewer.LeavesIcons | app.js:971 | The toggle icons of a rendered value are numbered only by the collapsibles that value renders, so every icon has an `active` flag |
| JsonViewer.LeafText | app.js:748-750 | An icon shows the down arrow exactly when its collapsible is active; a text leaf shows its own text |
| JsonViewer.Matches | app.js:833 | Only a text at least as long as the query can match it |
| JsonViewer.MatchesIgnoresCase | app.js:833 | Lower-casing the text or the query beforehand never changes whether they match |
| JsonViewer.FirstMatch | app.js:821-835 | The first match is the least position whose text matches; there is none exactly when no text matches |
| JsonViewer.QuotedMatches | app.js:833 | A query found in a string value is also found in the quoted leaf that shows it, whatever the case |
| JsonViewer.Viewer.constructor | app.js:969-973 | A freshly rendered viewer has every collapsible active and nothing highlighted |
| JsonViewer.Viewer.SetAllActive | app.js:744-746 | Setting every collapsible's `active` class leaves all flags equal to the requested value |
| JsonViewer.Viewer.AutoExpand | app.js:742-758 | The deferred expansion leaves every collapsible active |
| JsonViewer.Viewer.ExpandAll | app.js:777-790 | Expand All leaves every collapsible active |
| JsonViewer.Viewer.CollapseAll | app.js:761-774 | Collapse All leaves every collapsible inactive, so every icon shows the right arrow |
| JsonViewer.Viewer.Search | app.js:817-844 | An empty query changes nothing. Otherwise exactly the leaves whose lower-cased text contains the lower-cased query are highlighted, the result is the first of them, and the view scrolls to it when there is one |
| JsonViewer.Viewer.ClearHighlights | app.js:824-827 | No highlight is left |
| JsonViewer.Viewer.MarkMatches | app.js:830-838 | The loop highlights exactly the matching leaves and keeps the first of them |
| Intake.ErrorMessagesDistinct | app.js:1044-1060 | Each of the four errors is announced with a message of its own |
| Intake.ValidateFields | app.js:1044-1060 | The checks run in order and stop at the first failure: missing field, then SSN, then ZIP; all pass exactly when every field is filled, the SSN has nine digits and the ZIP is five digits |
| Intake.StoredProfile | app.js:69-79 | The stored profile's second address line is empty |
| Intake.StoredProfileKeepsForm | app.js:69-79 | The profile keeps every raw value the user typed, whitespace included: the form reads back from it, so two different forms are never stored alike |
| Intake.InitiateKbaConnection | app.js:64-103 | The profile is stored with an empty second address line. The request fails exactly when the address is longer than 50 characters. A request that is sent carries only the SSN's digits and the id `user_` followed by the clock's numeral |
| Intake.ValidateAndSubmit | app.js:1029-1071 | A profile is stored exactly when validation passes, and it is the form's raw values |
| Intake.SubmitAcceptedIff | app.js:1044-1071 | A request is sent exactly when all three checks pass and the address fits in 50 characters |
| Intake.SubmitErrorOrder | app.js:1044-1060 | An incomplete form is reported as incomplete before any format error, and a bad SSN before a bad ZIP |
| Intake.BlankFieldIsMissing | app.js:1034-1047 | The form is incomplete exactly when one of its eight fields holds only whitespace, and then the submission stops with the missing-field error |
| Intake.RequestSsnHasNineDigits | app.js:82 | Every request that is sent carries exactly nine SSN digits, although validation stripped the trimmed value and the request strips the raw one |
| Intake.SampleFormAccepted | app.js:1044-1060 | The sample client passes every check, and the request carries the SSN unchanged |
| Kba.Selected | app.js:274 | A selected value is always the value of a checked radio |
| Kba.SelectedFirstChecked | app.js:274 | No choice exactly when no radio is checked; otherwise the value of the first checked radio |
| Kba.Reached | app.js:273 | The loop reaches the first question without radio inputs, where reading its name throws |
| Kba.Collect | app.js:267-282 | Either the loop stops at a question without radios, every earlier one having radios, or every question has radios and `allAnswered` holds exactly when each has a checked radio |
| Kba.CollectAnswers | app.js:267-282 | The loop computes the collection of `Collect`. Exactly the reached unanswered questions gain the error mark, and earlier marks stay |
| Kba.CollectOne | app.js:273-281 | One question adds its choice under its id, or clears the all-answered flag and gains the error mark; no other mark changes |
| Kba.CollectStep | app.js:276-281 | Each question either adds its choice under its id, or clears the all-answered flag |
| Kba.Outcome | app.js:285-326 | Verified exactly when every question is answered and the answer key is present; the alert exactly when one is unanswered; the error exactly when a question has no radio |
| Kba.SubmitKbaAnswers | app.js:252-331 | The outcome of the collected answers, with the error marks of the collection loop |
| Kba.QuestionIdOfRadioName | app.js:213 | The radio name written for question id reads back as that id |
| Kba.AnswersKeys | app.js:272-282 | The keys of the answers map are exactly the ids of the answered questions |
| Kba.AnswersValues | app.js:277 | With distinct question ids, each answered question maps to the option that was checked |
| Kba.OutcomeIgnoresChoices | app.js:290-326 | The outcome depends only on which questions are answered, not on the options chosen |
| Kba.ReachedAgree | app.js:273 | Where the loop stops depends only on which questions have radios |
| Liabilities.SumOf | app.js:583-584 | A list without any amount sums to 0, the start value of `reduce` |
| Liabilities.SummaryOf | app.js:582-586 | The download summary always carries the default credit score 720 |
| Liabilities.SumOfAppend | app.js:583-584 | The total of two lists is the sum of their totals |
| Liabilities.SumOfSkipsMissing | app.js:583-584 | A missing amount adds nothing to the total |
| Liabilities.SumOfBounds | app.js:583-584 | With no negative amount, the total is at least every single amount |
| Liabilities.SumOfNonNegative | app.js:583-584 | With no negative amount, the total is not negative |
| Liabilities.MockTotals | app.js:368-469 | The sandbox data set's stated total debt and total minimum payments equal the computed sums of its five liabilities |
| KeyFilter.OnlyNumbers | script.js:9-15 | A key is allowed exactly when its code is 48 to 57, the codes of `0` to `9` |
| KeyFilter.BelowDigitsRejected | script.js:11 | Codes below 48 are rejected |
| KeyFilter.AboveDigitsRejected | script.js:11 | Codes above 57 are rejected |
| KeyFilter.DigitKeysAccepted | script.js:11-14 | A character's code is accepted exactly when the character is a digit |
| Report.FooterCmds | app.js:1158-1164 | The footer is two lines, 15 and 20 above the page bottom; the first reads "Page n of total" |
| Report.AppendToLast | app.js:1218-1219 | Drawing on the last page adds the new texts at the end of the body text |
| Report.AddEmptyPage | app.js:1150 | A new page adds no body text |
| Report.PlaceBreak | app.js:1148-1155 | A block whose reserved space fits below the cursor is written on the current page from the cursor down, and nothing before it moves; otherwise exactly one page is added and the whole block is on it, from the top margin down |
| Report.Run | app.js:1148-1155 | Each block can add at most one page, the one its own check adds |
| Report.CmdsAt | app.js:1254-1263 | Row k of a block is written in black at the block's top plus the advances of the rows before it |
| Report.WriteRowsAppend | app.js:1254-1263 | Writing some rows and then more rows is writing them all at once |
| Report.RunAppend | app.js:1248-1291 | Laying out some blocks and then more blocks is laying them all out at once |
| Report.RunLines | app.js:1148-1155 | Whatever the page breaks, the body read page after page gains exactly the blocks' texts, in order |
| Report.MaskedSsn | app.js:1202 | The SSN is shown as `XXX-XX-` followed by its last four characters, or by the whole value when it is shorter |
| Report.MaskedSsnExample | app.js:1202 | `123-45-6789` and `123456789` both show as `XXX-XX-6789` |
| Report.MaskedSsnHidesPrefix | app.js:1202 | Two SSNs that share their last four characters are shown the same |
| Report.NonEmptyRows | app.js:1214 | The filter never adds rows, and no row it keeps has an empty value |
| Report.NonEmptyRowsFilter | app.js:1214 | The filter keeps exactly the rows with a non-empty value |
| Report.ClientInfo | app.js:1207-1213 | Six label and value rows, and the SSN row shows only the masked SSN |
| Report.ClientRows | app.js:1207-1214 | No row shown has an empty value, and the full name, the masked SSN and the city line are always shown |
| Report.StoredProfileRows | app.js:1207-1214 | A stored profile's empty second address line is dropped; the other five rows keep their order |
| Report.HeaderRows | app.js:1166-1186 | The title, the report date, the user id and the client heading move the cursor by 70 |
| Report.ClientRowBlock | app.js:1216-1221 | A client row reserves one line, which holds its label and its value |
| Report.SummaryBlock | app.js:1226-1239 | The summary reserves 50, room for its heading and its three lines, and with the gap after the score moves the cursor by 60 |
| Report.HeadingBlock | app.js:1242-1245 | The "Detailed Liabilities" heading reserves 30, room for it, and moves the cursor by 20 |
| Report.DetailSteps | app.js:1266-1287 | At most four detail rows; none exactly when no detail is truthy |
| Report.FixedRows | app.js:1253-1263 | Every liability has five rows, ten apart, 50 in all |
| Report.LiabilityBlock | app.js:1250-1263 | The room a liability reserves holds its five rows; it is 10 more without details, room for the gap after them, and 40 more with details, room for all four detail rows |
| Report.LiabilitySteps | app.js:1248-1291 | A liability is its block, up to four detail rows and a gap |
| Report.FirstMissingAmount | app.js:1258-1260 | The index of the first liability without a balance or minimum payment. There is none exactly when every liability has both |
| Report.ReportLines | app.js:1248-1291 | Every liability's five fixed texts appear together, in order, among the report's texts |
| Report.LayoutLines | app.js:1166-1291 | The laid-out pages, read page after page, hold exactly the report's texts, however they break |
| Report.LiabilityKeepsTogether | app.js:1250-1287 | A liability never straddles two pages: the only break it can cause is the one before it |
| Report.HeadingEndsFirstPage | app.js:1174-1251 | With a stored profile whose address and date of birth are present, the cursor is at 230 after the "Detailed Liabilities" heading, and the first liability always starts the second page |
| Report.ReportLayout.constructor | app.js:1135 | A new document has one empty page, the default font size and black text |
| Report.ReportLayout.SetFontSize | app.js:1160 | Sets the font size |
| Report.ReportLayout.SetTextColor | app.js:1161 | Sets the text colour |
| Report.ReportLayout.Text | app.js:1162-1163 | One command, with the font size and colour in force, is added to the end of the current page |
| Report.ReportLayout.AddPage | app.js:1150 | One empty page is added at the end and becomes current |
| Report.ReportLayout.SetPage | app.js:1296 | The current page becomes page n, counted from 1 |
| Report.ReportLayout.AddFooter | app.js:1158-1164 | The footer for the current page count is appended to the current page, small and grey |
| Report.ReportLayout.Put | app.js:1218-1219 | A body text inside the body area goes at the end of the last page, and the layout stays valid |
| Report.ReportLayout.PutRow | app.js:1254-1255 | A body text at the cursor, then the cursor moves down by its step: the block has written one more row |
| Report.ReportLayout.CheckNewPage | app.js:1148-1155 | If the block fits, nothing changes. Otherwise exactly one page is added and the cursor returns to the margin. Either way the block then ends at or above `maxY` |
| Report.ReportLayout.CheckNewPageAsWritten | app.js:1148-1155 | After a break the new page already holds a "Page n of n" footer, and the text is left grey |
| Report.ReportLayout.StampFooters | app.js:1294-1298 | Page i gets exactly the footer "Page i of N", where N is the final page count |
| Report.ReportLayout.PlaceHeader | app.js:1166-1186 | The title, the report date, the user id and the client heading from the top of the first page, 20, 10, 20 and 20 apart |
| Report.ReportLayout.PutClientRow | app.js:1217-1220 | The row is placed as a block reserving 10: on the current page when it fits, else at the top of a new one, label and value on the same line |
| Report.ReportLayout.PlaceClientInfo | app.js:1216-1221 | The client rows are placed one after the other, each as a block reserving 10 |
| Report.ReportLayout.PlaceSummary | app.js:1226-1239 | The summary is placed as a block reserving 50 |
| Report.ReportLayout.PutSummaryRows | app.js:1227-1239 | The summary heading and its three lines, from the cursor down, 20, 10 and 10 apart |
| Report.ReportLayout.PlaceLiabilitiesHeading | app.js:1242-1245 | The heading is placed as a block reserving 30 |
| Report.ReportLayout.PutDetail | app.js:1268-1270 | One detail row, indented by 20, placed as a block reserving 10 |
| Report.ReportLayout.PlaceDetails | app.js:1266-1287 | Exactly the present detail rows, in order, each placed as its own block |
| Report.ReportLayout.PlaceFixedRows | app.js:1253-1263 | The five fixed rows from the cursor down, ten apart |
| Report.ReportLayout.PlaceLiability | app.js:1250-1290 | The liability's rows placed as a block reserving 90 with details or 60 without, then its detail rows, then a gap of 10 |
| Report.ReportLayout.PlacePreamble | app.js:1206-1245 | The client rows, a gap of 10, the summary block and the heading block, in that order |
| Report.ReportLayout.PlaceLiabilities | app.js:1248-1291 | Every liability is placed in turn |
| Report.Bodies | app.js:1294-1298 | The pages with their footers removed, one per page |
| Report.StampedBodies | app.js:1294-1298 | Stamping one footer on each page leaves every page ending with its own footer, and the bodies can be recovered |
| Report.GenerateMockPdfReport | app.js:1129-1301 | Fails without a stored profile, or at the first liability missing an amount. Otherwise the pages without their footers are exactly the layout of the report's blocks, with every break where a block's reserved space would cross `maxY`. Every page ends with its own "Page i of N" footer, all body text is black and inside the body area, and the body read page by page is exactly the report's texts |
| Report.AsWrittenBreaks | app.js:1148-1155 | With the check as written, two page breaks leave page 2 with both "Page 2 of 2" and "Page 2 of 3" footers |
| Report.FooterClash | app.js:1162 | A page's inline footer and its final footer disagree whenever more pages follow |

## Left out

- Network calls. This covers `testApiConnection`, the request and response of `initiateKBAConnection`, `orderCreditReport` and `getLiabilities`. They talk to a remote service.
- DOM plumbing. This covers building and wiring the question list, the liabilities list, the pop-up and the reset. It also covers the focus and keydown listeners, the `setTimeout` delays and the waiting cursor.
- Clipboard writes, `Blob` and object-URL downloads, and `JSON.stringify` pretty-printing. These are browser services.
- `updateStateValue` in `script.js`. It only logs.
- Report.GenerateMockPdfReport: the generator uses the corrected `checkNewPage` of "## Findings". The as-written generator, whose breaks stamp an extra footer and leave the body text grey, is modelled only through Report.ReportLayout.CheckNewPageAsWritten and Report.AsWrittenBreaks. With the sandbox data the first break already comes at the first liability (230 + 90 > 267).
- Report.GenerateMockPdfReport: the report date and the formatted date of birth come in as strings. `toLocaleDateString` depends on the locale and the clock.
- Report.GenerateMockPdfReport: the line-height factor and the `output('blob')` serialisation belong to the PDF library and are left out. The page height is the library's default A4 height, 297, as an integer. The cursor only moves by whole steps, so the page-break decisions are the same.
- Report.GenerateMockPdfReport: the library's own wrapping of over-long text is not modelled.
- Report.GenerateMockPdfReport: when an amount is missing, the model returns the error before drawing anything. The source throws in the middle of the liability, and the partial PDF is dropped, so nothing of it is observable.
- Report.GenerateMockPdfReport: the summary fields are always present, so a summary field that throws is not modelled.
- Numbers.FormatAmountUngrouped: `toLocaleString` is modelled for the en-US locale on amounts in whole cents. Other locales and amounts with fractions of a cent are left out.
- Liabilities.MockTotals: the mock data set's `debtToIncomeRatio` of 0.35 is a fraction, not an amount, and is not modelled.
- Liabilities.SummaryOf: amounts are integer cents rather than floating-point dollars, so rounding in the sums is not modelled.
- JsonRender.CreateEnhancedJson: numbers are integers. JavaScript values that JSON cannot hold, which reach the generic `<span>` branch, are not modelled.
- JsonViewer.Viewer.Search: the browser's parse of the markup is not modelled. The viewer is built from the list of single-text-node elements the markup produces, in document order.
- JsonViewer.Viewer.ExpandAll: the `maxHeight` styles and scroll heights are presentation only and are not modelled.
- JsonViewer.Viewer.CollapseAll: the same holds for its `maxHeight` style.
- JsonViewer.Viewer.Search: `scrollIntoView` is modelled as recording the target; the smooth scrolling itself is not.
- JsonViewer.Viewer.Search: `toLowerCase` is modelled for ASCII and Latin-1 letters; the rest of Unicode case mapping is not.
- JsonViewer.Viewer.Search: strings are sequences of code points, while JavaScript counts UTF-16 units. The two agree on text in the Basic Multilingual Plane.
- Intake.InitiateKbaConnection: the same code-point reading applies to the 50-character address limit.
- Intake.ValidateFields: the same code-point reading applies to `trim`.
- Kba.SubmitKbaAnswers: the answers are never sent anywhere, so only whether the answer key exists is a parameter. The success message and the new button are modelled by the `Verified` outcome.

## Findings

| source | as written | input that shows it | evidently intended | confidence | as-written member | corrected member |
|---|---|---|---|---|---|---|
| app.js:1148-1155 | `checkNewPage` calls `addFooter(getNumberOfPages())` right after adding a page. The new page gets "Page n of n", and the text colour is left at grey 100 for all body text after it. The final pass at app.js:1294-1298 then stamps "Page n of N" on the same page again. | A report that breaks onto a second and a third page. Page 2 then carries "Page 2 of 2" and "Page 2 of 3" on top of each other (`Report.AsWrittenBreaks`, `Report.FooterClash`). | Add a page and return the margin. Footers come only from the final pass, so each page has one footer and body text stays black. | not executed | Report.ReportLayout.CheckNewPageAsWritten | Report.ReportLayout.CheckNewPage |

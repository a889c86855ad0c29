# AI Resume Enhancer: a verified model of the résumé pipeline core

The server takes an uploaded PDF résumé and does four things:

1. It extracts the text page by page.
2. It has a language model rewrite the text as a structured JSON record.
3. It lays that record out as a new PDF with pdfkit: a coloured top bar, then two-column sections separated by grey dividers.
4. It answers with a download URL.

This project models the deterministic core of that pipeline in Dafny and proves what it promises.

| module | file | models |
|---|---|---|
| `Resume` | resume.dfy | the structured résumé record. Every field is optional. JavaScript truthiness is "present and non-empty", and `Array.isArray` is "present". |
| `Strings` | strings.dfy | `join`, ASCII `toUpperCase` and `arrayToBulletedString`; `Lines` reads a string back into its lines, for stating properties only |
| `Digits` | digits.dfy | `toString(base)` on non-negative integers, `padStart`, and the colour string of `getRandomColor` |
| `TextExtraction` | extract.dfy | the page loop of `extractTextFromPdf`, as a method with a loop proved against a specification function |
| `Pdf` | pdf.dfy | the pdfkit document as a `Doc` class. Its fields are the cursor, font, size, fill and stroke colour, line width and a log of drawing commands. Each method is proved equal to a pure transition on `DocState`. |
| `Layout` | layout.dfy | `generateStructuredPDF` and `drawTwoColumnSection`. There is a declarative plan of sections (`Plan`), a pure renderer (`Render`), and the source's step-by-step code as methods on a `Doc` with loops over jobs, bullets and education entries. Each method is proved to produce exactly what the pure renderer produces. |
| `LayoutProperties` | layout_props.dfy | what the rendered page looks like: header, section order and inclusion, column geometry, the divider and cursor rule, and entry lines in input order |
| `Handler` | handler.dfy | the `/api/improve-resume` decision skeleton: stage order, early returns, status codes, bodies, the output file name and the download URL |

pdfkit's text measurement, the height of a `moveDown()` line and the page width are not known here. They are parameters (`Pdf.Env`), and every cursor fact is stated relative to them. Coordinates are reals.

Where one might expect otherwise, the model follows the code:

- The text extractor appends a newline after every page, the last one included.
- The WORK HISTORY and EDUCATION blocks are drawn whenever the field is an array, even an empty one.
- The job line always contains " at ", even when the title and the company are both missing.
- The model's JSON answer is trusted as parsed. There is no schema validation step between parsing and layout.

## Model

| member | source | states |
|---|---|---|
| Strings.Bulleted | server.mjs:64-66 | the bulleted string is empty exactly when the list is empty; otherwise it starts with "• " |
| Strings.BulletedLines | server.mjs:64-66 | for a non-empty list of items without newlines, splitting the result at newlines gives each item prefixed with "• ", in order |
| Strings.BulletedSeparators | server.mjs:64-66 | n ≥ 1 newline-free items are separated by exactly n − 1 newlines |
| Strings.BulletedSnoc | server.mjs:64-66 | for a non-empty list, adding an item appends "\n• " and that item |
| Digits.ToBaseRoundTrip | server.mjs:61 | reading back the digits `toString(b)` writes gives the number |
| Digits.ToBaseDigits | server.mjs:61 | `toString(b)` writes only lower-case digits valid in base b |
| Digits.ToBaseLength | server.mjs:61 | for k ≥ 1, a number below b^k has at most k digits |
| Digits.PadStartZeros | server.mjs:61 | zero-padding to a length keeps the digits valid and the value unchanged |
| Digits.HexColor | server.mjs:61 | for every n the colour is '#' followed by at least six lower-case hex digits whose value is n |
| Digits.HexColorWellFormed | server.mjs:59-62 | for 0 ≤ n < 16777215 the colour is '#' plus six lower-case hex digits whose value is n, and it is never "#ffffff" |
| TextExtraction.ExtractText | server.mjs:49-56 | the loop over pages 1..numPages builds exactly the concatenation, in page order, of each page's fragments joined by a space and followed by "\n" |
| TextExtraction.PagesTextPrefix | server.mjs:49-56 | the text of the first k pages is a prefix of the text of all pages |
| TextExtraction.PagesTextAsJoin | server.mjs:49-56 | the text is the page lines joined by "\n", plus a final "\n" after the last page |
| TextExtraction.PagesTextLines | server.mjs:49-56 | when no fragment has a newline, splitting the text gives every page's line in order, empty pages included, then one empty line |
| TextExtraction.PagesTextNewlines | server.mjs:49-56 | zero pages give ""; otherwise, when no fragment has a newline, there is exactly one newline per page and the text ends with one |
| Pdf.Doc.constructor | server.mjs:70-73 | a new document has its cursor at the top-left margin (50, 50), Helvetica 12, black, and nothing drawn |
| Layout.DrawTopBar | server.mjs:80-102 | the step-by-step header code produces exactly `DrawHeader`: the bar, the name, the contact block, then black fill and the cursor at 110 |
| Layout.DrawTwoColumnSection | server.mjs:108-139 | the step-by-step `drawTwoColumnSection` produces exactly `TwoColumn` |
| Layout.DrawDivider | server.mjs:130-138 | the divider code produces exactly `Divider`: a grey line 5 below the cursor, then the cursor 15 below where it was |
| Layout.DrawJob | server.mjs:171-194 | one `forEach` iteration over jobs draws exactly `DrawEntry` of the job's entry |
| Layout.DrawJobDetails | server.mjs:180-186 | the location and duration lines are drawn only when non-empty, indented 10 |
| Layout.DrawBullets | server.mjs:188-192 | the loop over bullet points draws one "• bp" line per bullet, in order, indented 20 |
| Layout.DrawStackedHeading | server.mjs:159-170 | a stacked block's heading goes in bold 12 in the left column at the cursor; the style is then regular 11 black |
| Layout.DrawWorkHistory | server.mjs:158-204 | the loop over jobs draws exactly the WORK HISTORY `StackedSection` |
| Layout.DrawEducationEntry | server.mjs:221-231 | one education iteration: the degree, the institution, and the year bullet only when non-empty |
| Layout.DrawEducation | server.mjs:208-240 | the loop over education entries draws exactly the EDUCATION `StackedSection` |
| Layout.DrawSummary | server.mjs:144-146 | the summary section is drawn exactly as its part of the plan says |
| Layout.DrawSkills | server.mjs:151-154 | the skills section is drawn only for a non-empty array, with bulleted content |
| Layout.DrawWork | server.mjs:158-204 | the work block is drawn whenever the field is an array |
| Layout.DrawEducationPart | server.mjs:208-240 | the education block is drawn whenever the field is an array |
| Layout.DrawCertifications | server.mjs:245-248 | the certifications section is drawn only for a non-empty array |
| Layout.DrawAchievements | server.mjs:253-256 | the achievements section is drawn only for a non-empty array |
| Layout.DrawReferences | server.mjs:261-263 | the references section is drawn only for a non-empty string |
| Layout.GenerateStructuredPDF | server.mjs:69-270 | a fresh document that ends in exactly `Render`: the header, then every planned section in plan order |
| LayoutProperties.HeaderFacts | server.mjs:80-102 | the header adds exactly three commands: a bar of height 90 at (0, 0) across the page in the given colour; the name (or 'Name Here') at (50, 20) in white bold 20; the contact (or 'Contact Info') at (50, 45) in white regular 10. Afterwards the fill is black and the cursor is 110. |
| LayoutProperties.RenderFacts | server.mjs:69-263 | the page starts with the three header commands, drawn in the colour of `getRandomColor`; every later command is a left title, right-column content or a divider; the left column shows exactly the planned headings in plan order |
| LayoutProperties.PlanOrdered | server.mjs:144-263 | planned headings follow Professional Summary, Skills, Work History, Education, Certifications / Licenses, Achievements, References; each appears at most once |
| LayoutProperties.PlanIncludes | server.mjs:144-263 | each heading is planned exactly when its condition holds: non-empty arrays for Skills, Certifications and Achievements; non-empty strings for Summary and References; any array for Work History and Education |
| LayoutProperties.DrawnHeadings | server.mjs:144-263 | on the rendered page, the left column shows heading k exactly when its condition holds, in the fixed order and without repeats |
| LayoutProperties.FullRecordHeadings | server.mjs:144-263 | a record with every optional field populated shows all seven headings, each once, in the fixed order |
| LayoutProperties.EmptyWorkHistoryStillDrawn | server.mjs:158-165 | an empty work-experience array still gets a WORK HISTORY heading |
| LayoutProperties.ColumnFacts | server.mjs:108-139 | a two-column section draws the upper-cased title at x 50 (width 100, bold 12) and the content at x 170 (width page − 220, regular 11), both at the start y. The divider runs 5 below where the content ended, and the cursor ends at the start y plus the content's measured height plus 15. |
| LayoutProperties.DividerFacts | server.mjs:130-138 | with nextY the cursor, a line runs from (50, nextY + 5) to (page − 50, nextY + 5); the cursor becomes nextY + 15 |
| LayoutProperties.StackedFacts | server.mjs:158-240 | a work or education block draws its heading first in the left column, then its entries' lines in order, the first at the cursor the heading left; it is followed by the divider and cursor placement stated by `StackedCursor` (the shared predicate `DividerBelowEntries`) |
| LayoutProperties.StackedCursor | server.mjs:195-203 | the divider of a stacked block is drawn at the cursor the entries left plus 5, and the cursor ends 15 below it: below the heading when there are no entries, and one line below the last entry's last line otherwise |
| LayoutProperties.SectionFacts | server.mjs:108-240 | every section: heading first at the cursor, then only right-column or divider commands, ending with a divider 10 above the new cursor |
| LayoutProperties.SectionsFacts | server.mjs:144-263 | a run of sections only appends, and its left-column texts are the sections' headings in order |
| LayoutProperties.SubsFacts | server.mjs:180-192 | an entry's indented lines are drawn in order, in the right column, with their texts in order; when the entry has at least one indented line, the font ends as regular Helvetica |
| LayoutProperties.SubsLines | server.mjs:180-192 | each indented line is one text command in regular Helvetica at the indent the entry gives it. The first is at the cursor, each later one where the one before ended, and the cursor is left where the last ended. |
| LayoutProperties.EntryFacts | server.mjs:171-194 | an entry's first line is bold at (170, cursor), width page − 220; then its sub-lines follow, all in the right column, with the entry's texts in order |
| LayoutProperties.EntryCursor | server.mjs:171-194 | an entry draws its bold first line at the cursor, then one command per sub-line in regular Helvetica at its indent. The first sub-line starts where the first line ended, and each later one where the previous one ended. `moveDown()` then leaves the cursor one line height (of the last line's font, size 11) below the last line's bottom. |
| LayoutProperties.EntriesFacts | server.mjs:171-194 | entries are drawn one after another in input order; the first starts at the cursor |
| LayoutProperties.EntriesCursor | server.mjs:171-194 | entry k starts at command offset Σ(1 + sub-lines) of the entries before it, with its bold lead line. The first lead is at the cursor. Each later lead is one line height below the last line of the entry before it, the cursor that entry's `moveDown()` left. The final cursor is one line height below the last line. |
| LayoutProperties.WorkHistoryTexts | server.mjs:171-194 | the work block's texts are WORK HISTORY, then for each job in order: "title at company", the location and duration if non-empty, and "• bp" per bullet |
| LayoutProperties.EducationTexts | server.mjs:221-231 | the education block's texts are EDUCATION, then for each entry in order: degree, institution, and "• year" if non-empty |
| LayoutProperties.JobWithoutBullets | server.mjs:180-193 | a job without bullet points has only indent-10 lines under its title line, at most three lines in all |
| LayoutProperties.JaneDoePlan | server.mjs:151-154 | Jane Doe's record with skills SQL and Python plans only a Skills section reading "• SQL\n• Python" |
| LayoutProperties.JaneDoeContact | server.mjs:87-98 | her name is drawn as given, and her contact block is two lines |
| LayoutProperties.JaneDoeExample | server.mjs:80-154 | her page draws "Jane Doe" in the top bar; SKILLS is the only left-column heading |
| Handler.ImproveResume | server.mjs:275-402 | every reply is 200, 400 or 500. It is 400 exactly when no file was uploaded, and exactly then no stage runs. It is 200 exactly when the body is the success body. |
| Handler.OutputFilename | server.mjs:389 | the name is "improved_", then the decimal digits of the timestamp, then "_", then the original name unchanged |
| Handler.DownloadUrl | server.mjs:395 | the URL is "/outputted_resumes/" followed by the file name unchanged |
| Handler.NoFileRejected | server.mjs:277-279 | without a file the reply is 400 'No file uploaded', and nothing is read or extracted |
| Handler.StagesInOrder | server.mjs:275-402 | the stages that ran always form a prefix of extract, complete, parse, render; the model is called only after the file was read and its text extracted |
| Handler.RenderOnlyWhenReady | server.mjs:357-393 | a PDF is written exactly when extraction, the model call and parsing all succeeded |
| Handler.ModelFailure | server.mjs:357-370 | a failed model call gives 500 "OpenAI API error" with the error's message as details |
| Handler.ParseFailure | server.mjs:375-381 | an unparseable answer gives 500 "Error parsing structured resume JSON" with the parser's message |
| Handler.SuccessIffAllStagesSucceed | server.mjs:275-402 | the reply is 200 exactly when every stage succeeded. It then carries "/outputted_resumes/improved_<ms>_<originalname>" and the model's answer verbatim. Otherwise it is 400 without a file and 500 in every other case. |
| Handler.OutputFilenameRoundTrip | server.mjs:389 | the timestamp and the original name can be read back from the output file name, whatever the name contains |
| Handler.OutputFilenameInjective | server.mjs:389 | different timestamps or original names never give the same output file |

## Left out

- The Express app, multer storage, static serving, `app.listen`, the `Promise.withResolvers` polyfill and console logging: HTTP plumbing and runtime shims with no domain logic.
- The pdfjs calls (`getDocument`, `getPage`, `getTextContent`): foreign code. The fragments of each page are the input of `TextExtraction.ExtractText`.
- pdfkit internals: text measurement, line wrapping, font metrics, automatic page breaks and the actual page size. They are the abstract `Pdf.Env`; the model does not capture overflow onto a second page.
- pdfkit's `align: 'left'` option: it is the default and does not change any modelled quantity.
- `Math.random` and `Math.floor` in `getRandomColor`: floating point and nondeterminism. The chosen integer is a parameter of `Render` and `GenerateStructuredPDF`.
- The prompt template and the chat-completion call: a remote service. The call's answer, or its failure, is `Handler.Services.complete`.
- `JSON.parse`: a foreign parser. Its result, or its failure, is `Handler.Services.parse`. The record type cannot hold values of the wrong JSON type (for example a number where a string is expected).
- Handler.ImproveResume: two throws outside the inner `try` blocks are not modelled. One is constructing the OpenAI client (`new OpenAI({ apiKey })`, server.mjs:352-354), for example without a key. The other is `completion.choices[0]` or its `message` being absent (server.mjs:372). Either reaches the outer catch (server.mjs:398-400), which answers 500 with the error's own message as `error`. The model has no stage for them, so it never produces that reply after a successful extraction.
- `fs.readFileSync`, `fs.existsSync` and `mkdirSync`, the write stream and its finish/error promise, `path.join` and `process.cwd()`: I/O. A failure of any of them is a failing stage that reaches the outer catch. The output directory is not part of the file name the model checks.
- `Date.now()`: the millisecond timestamp is a parameter.
- The `stack` field of the outer catch's error body: a runtime stack trace.
- Strings.Upper: ASCII upper-casing only. The section titles it is applied to are ASCII.
- Layout.DrawJob: the source's `job.bulletPoints && job.bulletPoints.length > 0` is modelled for array values only. A bullet-points field that is some other truthy value is not representable in the record type.

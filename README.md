# Select accessibility analyzer — a Dafny model

The analyzer reads an HTML document and, for every `<select>` element in it, builds a
record of the element's attributes, its label, its options and its children. It then
reports accessibility issues and successes. This project models two functions of
`analyze.js`:

- **`escapeHtml`** is a pure string encoder. It is modelled in module `HtmlEscape`
  as `EscapeHtml`, with a decoder `Unescape` as its partner.
- **`analyzeSelect(doc)`** is the rule engine. Module `SelectAnalyzer` models it in
  two forms that are proved equal:
  - imperative methods (`AnalyzeSelect`, `AnalyzeOne`, `BuildSelectInfo`, `TallyOptions`,
    `Report`, ...) that follow the code step by step: a loop over the selects, a loop over
    the options, and findings pushed onto sequences;
  - a declarative specification (`Analysis`, `SelectInfoOf`, `TallyOf`, `IssuesFor`,
    `SuccessesFor`, ...). The rule properties are proved as lemmas about it.

The document is an abstract element tree (module `Dom`). An element has a tag, an
attribute map and children; a child is an element or a text node. `textContent` is the
concatenation of all descendant text. `querySelectorAll`, `querySelector`,
`getElementById` and `closest` are searches over a document-order walk of the tree. Each
element in the walk carries its ancestors, nearest first.

Module `JsText` models the JavaScript string built-ins the rules use. These are `trim`
(with the ECMAScript whitespace set), `includes`, `replace` with a string pattern
(removes the first occurrence) and `parseInt` without a radix. Module `Wrappers` holds
`Option`.

The findings are tagged values, not the Korean message strings. Each carries the 1-based
number of its select. The "options without value" issue also carries the count.

- `Issue` = `NoValidSelect | MissingLabel | MissingId | MissingName | ContainsHr |
  RequiredWithoutEmptyOption | OptionsWithoutValue(count) | NoOptions`.
- `Success` = `LabelAssociated(via) | AriaLabelProvided | AriaLabelledbyAssociated |
  MultipleSelection | GroupedOptions`.

`labelType` is the datatype `LabelType = NotLabelled | ForAttribute | Enclosing`. It
stands for the code's strings `''`, `'for 속성 연결'` and `'암시적 연결 (label 내부)'`.

### What analyze.js does not do

Some checks one might expect of such a tool are not in the code, and the model does not
add them:

- There is no tag-balance checker and no duplicate-id detection.
- There is no `title` fallback.
- There is no check of `optgroup` labels.
- There is no warning when several naming mechanisms are present.
- `aria-required` is not treated like `required`.
- `aria-labelledby` is not split on whitespace. The whole attribute value is looked up
  as one id (analyze.js:63-66).
- The success precedence is label, then `aria-label`, then `aria-labelledby`
  (analyze.js:115-123).
- "Has aria-label" means the attribute is present (analyze.js:60). An empty
  `aria-label=""` therefore counts as a naming mechanism.

## Model

| member | source | states |
|---|---|---|
| HtmlEscape.EscapeChar | analyze.js:2-3 | each of the five special characters maps to a reference starting with `&`; every other character maps to itself |
| HtmlEscape.NoMarkupInOutput | analyze.js:1-5 | the output never contains `<`, `>`, `"` or `'` |
| HtmlEscape.AmpersandsBeginReferences | analyze.js:1-5 | every `&` in the output begins one of `&amp;`, `&lt;`, `&gt;`, `&quot;`, `&#39;` |
| HtmlEscape.UnchangedIffNoSpecial | analyze.js:1-5 | the output equals the input exactly when the input contains none of the five special characters |
| HtmlEscape.EscapeConcat | analyze.js:2-4 | escaping distributes over concatenation |
| HtmlEscape.EscapeSnoc | analyze.js:2-4 | the output is the image of each input character under the fixed map, in order |
| HtmlEscape.LengthGrows | analyze.js:1-5 | the output is never shorter than the input |
| HtmlEscape.UnescapeEscape | analyze.js:1-5 | decoding the five references gives back the input (round trip) |
| HtmlEscape.EscapeInjective | analyze.js:1-5 | distinct inputs have distinct escapings |
| JsText.TrimStart | analyze.js:66 | removes exactly the leading whitespace; what remains does not start with whitespace |
| JsText.TrimEnd | analyze.js:66 | removes exactly the trailing whitespace; what remains does not end with whitespace |
| JsText.Trim | analyze.js:66 | the result is a span of the input with only whitespace before and after it; it is empty exactly when the input is all whitespace, and otherwise neither starts nor ends with whitespace |
| JsText.TrimIdempotent | analyze.js:84 | trimming twice, as the enclosing-label text does, is the same as trimming once |
| JsText.IndexFrom | analyze.js:95 | the position found is the first occurrence at or after the start; None means no occurrence |
| JsText.ContainsIff | analyze.js:95 | `includes` holds exactly when the pattern occurs somewhere |
| JsText.RemoveFirst | analyze.js:84 | `replace(pattern, '')` removes the first occurrence: putting the pattern back at the first match position gives the input; the string is unchanged when there is no occurrence or the pattern is empty |
| JsText.DigitPrefix | analyze.js:53 | parseInt reads the longest prefix of digits |
| JsText.ParseInt | analyze.js:53 | definition: whitespace, one sign, an optional `0x` prefix, the longest digit run; None stands for NaN; properties in `ParseIntDecimal` |
| JsText.ParseIntDecimal | analyze.js:53 | parseInt reads back the number written by a decimal numeral |
| HtmlEscape.EscapeHtml | analyze.js:1-5 | definition: each character replaced by its image under the lookup table; properties in `NoMarkupInOutput`, `AmpersandsBeginReferences`, `UnchangedIffNoSpecial`, `EscapeSnoc` and `UnescapeEscape` |
| Dom.TextContent | analyze.js:66 | definition: the text of all descendant text nodes, in document order |
| Dom.Walk | analyze.js:14 | the document-order walk starts at the element itself, with its ancestors |
| Dom.WalkNodeInside | analyze.js:14 | every entry of a walk has an ancestor chain that extends the chain the walk started from |
| Dom.WalkSubtree | analyze.js:90 | every entry after the first lies strictly inside the walked element, which is what `select.querySelectorAll` searches |
| Dom.WithTag | analyze.js:14 | a tag query keeps exactly the walked elements with that tag, and no more than were walked |
| Dom.WithTagFilter | analyze.js:14 | a tag query is the order-preserving filter by tag: nothing is reordered, merged or dropped |
| Dom.WithTagConcat | analyze.js:14 | a tag query over two runs of elements is the query over the first, then the query over the second |
| Dom.WithTagCount | analyze.js:91 | a tag query returns one entry per walked element with the tag, equal entries included, so `options.length` counts every option |
| Dom.First | analyze.js:71 | `querySelector` gives the first match, and None exactly when nothing matches |
| Dom.GetElementById | analyze.js:65 | definition: the first element of the document, in document order, whose id is the given value; properties in `Dom.First` |
| Dom.LabelFor | analyze.js:71 | definition: the first `label` of the document whose `for` is the id; properties in `Dom.First` |
| Dom.Nearest | analyze.js:81 | the first ancestor, nearest first, with the tag; None exactly when no ancestor has it |
| Dom.Closest | analyze.js:81 | `closest('label')` is the element itself when it has the tag, and otherwise the nearest ancestor with the tag; None exactly when neither exists |
| Seqs.Count | analyze.js:98 | a count never exceeds the length of the sequence |
| SelectAnalyzer.SizeOf | analyze.js:53 | `parseInt(size) \|\| 1` is never 0: NaN and 0 fall back to 1 |
| SelectAnalyzer.SizeOfNumeral | analyze.js:53 | a positive decimal `size` attribute gives that number |
| SelectAnalyzer.OptionPartition | analyze.js:94-100 | every option is exactly one of: with a value, placeholder, or value-less choice |
| SelectAnalyzer.TallyOption | analyze.js:93-104 | a valued option changes neither the empty-option flag nor the value-less count; a placeholder sets the flag; a value-less choice adds one to the count; a disabled option adds one to the disabled count |
| SelectAnalyzer.TallyOfSnoc | analyze.js:93-104 | the same per-option facts, stated for the specification of the loop |
| SelectAnalyzer.TallyOptions | analyze.js:93-104 | the loop over the options yields the counts of placeholder, value-less and disabled options |
| SelectAnalyzer.OptionCountBounds | analyze.js:93-104 | optionsWithoutValue plus one for an empty option, and disabledOptionsCount, are each at most the number of options |
| SelectAnalyzer.InfoCountBounds | analyze.js:90-104 | the same bounds hold for every select's record against its optionsCount |
| SelectAnalyzer.ResolveAriaLabelledby | analyze.js:63-67 | the text it computes equals `AriaLabelledbyText`, whose three cases `AriaLabelledbyCases` states |
| SelectAnalyzer.AriaLabelledbyCases | analyze.js:63-67 | ariaLabelledbyText is `''` without a reference, the not-found marker when no element has the id, and otherwise the target's trimmed text |
| SelectAnalyzer.ResolveLabel | analyze.js:69-87 | the two label checks yield `LabelOf`: the for-label first, then the enclosing label, whose precedence `LabelPrecedence` states |
| SelectAnalyzer.LabelPrecedence | analyze.js:69-87 | the for-label is used exactly when the id is present, non-empty and matched; the enclosing label only when the for-label is not used; hasLabel exactly when a label type was set; labelText is the for-label's trimmed text, or the enclosing label's trimmed text with the select's own trimmed text removed once, or `''` without a label |
| SelectAnalyzer.SelectInfoOf | analyze.js:22-112 | definition: the record of one select, field by field; properties in `LabelPrecedence`, `AriaLabelledbyCases` and `InfoCountBounds` |
| SelectAnalyzer.BuildSelectInfo | analyze.js:22-112 | the record built field by field equals the specified record of the select |
| SelectAnalyzer.ReportLabel | analyze.js:115-123 | the missing-label issue is pushed exactly when no naming mechanism exists; otherwise exactly one label success is pushed, with label over aria-label over aria-labelledby |
| SelectAnalyzer.PushIssues | analyze.js:115-147 | definition: the seven issue rules as conditional pushes in source order; properties in `IssuesForRaised`, `MissingLabelCount` and `PushIssuesAppend` |
| SelectAnalyzer.PushSuccesses | analyze.js:115-155 | definition: the three success rules as conditional pushes in source order; properties in `SuccessesForSucceeded`, `LabelSuccessCount` and `PushSuccessesAppend` |
| SelectAnalyzer.Report | analyze.js:115-155 | the rules push exactly the specified chain of issues and successes, in order |
| SelectAnalyzer.PushIssuesAppend | analyze.js:115-147 | pushing onto existing issues appends the record's own issues |
| SelectAnalyzer.PushSuccessesAppend | analyze.js:115-155 | pushing onto existing successes appends the record's own successes |
| SelectAnalyzer.IssuesForRaised | analyze.js:115-147 | a record's issues are exactly those whose rule condition holds |
| SelectAnalyzer.SuccessesForSucceeded | analyze.js:115-155 | a record's successes are exactly those whose rule condition holds |
| SelectAnalyzer.MissingLabelCount | analyze.js:115-116 | a record has one missing-label issue when it has no naming mechanism, and none otherwise |
| SelectAnalyzer.LabelSuccessCount | analyze.js:117-123 | a record has one label success when it has a naming mechanism, and none otherwise |
| SelectAnalyzer.OneLabelVerdict | analyze.js:115-123 | each record gets exactly one label verdict |
| SelectAnalyzer.AnalyzeOne | analyze.js:21-158 | one step of the loop over the selects appends the select's record and its findings |
| SelectAnalyzer.Analysis | analyze.js:7-161 | definition: the results for a document; properties in `NoSelectReport`, `RecordsInOrder` and the per-select lemmas |
| SelectAnalyzer.AnalyzeSelect | analyze.js:7-161 | the imperative analysis returns the specified results |
| SelectAnalyzer.NoSelectReport | analyze.js:14-19 | the "no valid select" issue appears exactly when there is no select, and then the results are that one issue and nothing else |
| SelectAnalyzer.RecordsInOrder | analyze.js:21-23 | there is one record per select, in document order, with index equal to position + 1 |
| SelectAnalyzer.AnalysisRecords | analyze.js:21-158 | with selects present, the numbered records come with their findings, record after record |
| SelectAnalyzer.IssuesBounded | analyze.js:115-147 | every issue names a select that exists |
| SelectAnalyzer.IssuesOfSelect | analyze.js:115-147 | the issues about select k are exactly its own record's issues, in emission order |
| SelectAnalyzer.SuccessesOfSelect | analyze.js:115-155 | the successes about select k are exactly its own record's successes, in emission order |
| SelectAnalyzer.IssuesPerRecord | analyze.js:115-147 | an issue about select k is reported exactly when that record's rule raises it |
| SelectAnalyzer.SuccessesPerRecord | analyze.js:115-155 | a success about select k is reported exactly when that record's rule yields it |
| SelectAnalyzer.LabelVerdictPerSelect | analyze.js:115-123 | select k gets the missing-label issue exactly when it has no naming mechanism, and otherwise exactly one label success chosen label > aria-label > aria-labelledby; in all cases exactly one label verdict |
| SelectAnalyzer.RequiredRulePerSelect | analyze.js:137-139 | the "required but no empty option" issue is reported exactly when isRequired and not hasEmptyOption |
| SelectAnalyzer.ValuelessRulePerSelect | analyze.js:141-143 | the "options without value" issue is reported exactly when optionsWithoutValue > 0, and carries that count |

## Left out

- The click handler (analyze.js:163-287) is left out. It reads a textarea, parses it with
  `DOMParser` and writes HTML strings into `innerHTML`, which is browser I/O and
  presentation.
- The `DOMContentLoaded` handler (analyze.js:290-295) is left out. It is UI wiring that
  sets a placeholder.
- HTML parsing is not modelled. The analysis starts from an already-built element tree.
  Comment nodes and other non-element, non-text nodes are not represented.
- CSS selector escaping of the id inside `label[for="..."]` (analyze.js:71) is not
  modelled. The lookup compares the `for` attribute with the id directly. The code puts
  the id into the selector unescaped. An id that contains `"`, `\` or a line break
  therefore makes the real `querySelector` throw, or match a label with a different
  `for` value. The model returns an ordinary result in those cases.
- The Korean message strings are not modelled. Findings are tagged values carrying the
  select number and, where the message has one, the count.
- JsText.ParseInt: returns the exact integer the digits write. The source's `parseInt`
  returns a double. That double is rounded above 2^53, and it is `Infinity` for numerals
  longer than about 309 digits. The model has neither effect. It skips leading
  whitespace, reads a sign, an optional `0x` prefix and the longest digit run.
  `parseInt(null)` for an absent attribute is NaN, which falls back to 1.
- JsText.Trim: strings are sequences of Unicode scalar values, not UTF-16 code units.
  This does not change the whitespace set that `trim` removes.
- The `selectInfo.id` and `selectInfo.name` fields that the code adds after building the
  record (analyze.js:49, 51) are included as record fields, next to the other fields.

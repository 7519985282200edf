# BaseListView, modelled in Dafny

This project models `yii\widgets\BaseListView`, Yii 2's base class for widgets that
show a data provider's models as a list. It covers:

- **Initialisation.** `init()` refuses a view that has no data provider.
- **The run decision.** `run()` renders the layout when there are rows to show or
  `empty` is `false`. Otherwise it renders the empty-state block.
- **The layout pass.** A `preg_replace_callback('/{\w+}/', ...)` pass sends each
  layout token to `renderSection()`. A token that names no section is kept as
  written. The pass is modelled as a left-to-right scan (`Layout.Substitute`) that
  threads the pager and sorter configurations through the calls, in layout order.
- **`renderSection()`.** Dispatches `{summary}`, `{items}`, `{pager}` and `{sorter}`,
  and answers `false` (here `None`) for any other name.
- **`renderSummary()`.**
  - Derives the six display numbers from the provider, with a paginated branch and
    an unpaginated one.
  - Picks the configured template, or the translated default wrapped in
    `<div class="summary">`.
  - Substitutes the six tokens with PHP's array form of `strtr`. That is one
    left-to-right pass that replaces the longest key found at each position and
    never rescans what it inserted. It is modelled generically in `Strings.Strtr`.
- **`renderPager()` and `renderSorter()`.**
  - Each returns the empty string when there is nothing to page or sort.
  - Otherwise each removes `class` from its own configuration array in place,
    injects the live pagination or sort, and hands both to the widget.
- **`ArrayHelper::remove`**, which `run()` uses to take the `tag` option (default
  `div`).

The class `ListView.BaseListView` holds the fields the PHP object changes: `options`,
`pager` and `sorter`. Its methods are proved equal to pure functions:

- `Section`, `PagerStep`, `SorterStep`, `RunContent` and `Summary.Render`.
- `Layout.Substitute`, for the loop in `RenderLayout`.

The three passes `Layout.Substitute`, `Strings.Strtr` and `Summary.Fill` carry no
contract of their own. Their properties are the step and prefix lemmas listed below.

The properties are proved about those functions:

- **The layout pass.**
  - It renders exactly the tokens of a layout, in order, and keeps unknown ones
    (`SubstitutePieces`).
  - It copies, unchanged and without rendering anything, any stretch of text at
    which no token starts. That includes brace-free text, a `{` followed by no
    word, `{}`, and the outer brace of `{{items}}`, whose inner `{items}` is still
    rendered (`SubstituteUnmatchedPrefix`, `NestedToken`).
  - The default layout yields summary, items and pager, one per line.
- **The summary numbers.** They are consistent: `end - begin + 1 == count`, and they
  fall within range for a consistent provider.
- **The summary substitution.**
  - It replaces every occurrence of the six tokens and leaves none behind.
  - It copies any stretch at which no key starts, so unknown `{word}` tokens and
    stray braces survive, including next to real tokens (`StrtrUnmatchedPrefix`,
    `MixedTemplateExample`).
  - A configured summary without any of the six tokens is shown as it is.
  - Every number it writes reads back as itself.
- **State that carries over.**
  - A second `{pager}` or `{sorter}` in the same render leaves the configuration as
    it is.
  - Because its `class` entry is gone, that second occurrence asks for the default
    `LinkPager` / `LinkSorter`.
  - A second `run()` likewise falls back to the `div` tag.

The view's collaborators are parameters (`ListView.Collaborators`):

- the subclass's `renderItems()` output;
- the translated messages from `Yii::t`;
- `$class::widget($config)`, a function of the class and the configuration.

The data provider is a value (`Provider.DataProvider`) with the count, the total
count, the optional pagination and the optional sort.

Where documentation and code differ, the model follows the code:

- A provider's documented relation between page, page count, total count and visible
  count is not checked by the view. `Provider.Consistent` states it, and only the
  lemma `Summary.DisplayInRange` assumes it. A provider with no results may report
  a page count of 0, so the page is required to lie below the page count only
  when the page has rows.
- `empty === true` is concatenated as PHP does, as `"1"`.

## Model

| member | source | states |
|---|---|---|
| ListView.BaseListView.constructor | framework/yii/widgets/BaseListView.php:69 | a new view has no summary override, `empty` unset, empty option arrays and the default layout `{summary}\n{items}\n{pager}` |
| ListView.BaseListView.Init | framework/yii/widgets/BaseListView.php:81-85 | fails exactly when there is no data provider, with the "dataProvider must be set" configuration error |
| ListView.BaseListView.Run | framework/yii/widgets/BaseListView.php:92-103 | the content is the layout pass or the empty block, exactly as `RunContent` decides; the tag is `options['tag']` or `div`, and `tag` is removed from the options |
| ListView.BaseListView.RenderLayout | framework/yii/widgets/BaseListView.php:96-99 | the loop's output and the pager/sorter configurations it leaves are those of `Layout.Substitute` over the layout with the section renderer |
| ListView.BaseListView.RenderStep | framework/yii/widgets/BaseListView.php:96-99 | one match of the pass: a token is rendered (or kept when unsupported), any other character copied, and the rest of the pass continues from the next position |
| ListView.BaseListView.RenderSection | framework/yii/widgets/BaseListView.php:113-127 | output and configuration changes equal `Section` for the given name |
| ListView.BaseListView.RenderToken | framework/yii/widgets/BaseListView.php:96-98 | the piece the callback returns for a match is the section's content, or the match itself when `renderSection` answers `false`; the configurations change as that section changes them |
| ListView.BaseListView.RenderSummary | framework/yii/widgets/BaseListView.php:132-159 | returns `Summary.Render` of the provider, the summary option and the messages; none of the six tokens is left in the output, and a configured summary without any of them is shown as it is |
| ListView.BaseListView.RenderPager | framework/yii/widgets/BaseListView.php:165-175 | output and new pager configuration equal `PagerStep` of the old configuration |
| ListView.BaseListView.RenderSorter | framework/yii/widgets/BaseListView.php:181-191 | output and new sorter configuration equal `SorterStep` of the old configuration |
| ListView.Remove | framework/yii/widgets/BaseListView.php:103 | `ArrayHelper::remove`: the value under the key or the default; the key is gone and every other entry is kept unchanged |
| ListView.PagerStep | framework/yii/widgets/BaseListView.php:165-175 | with no pagination or no rows: empty output, configuration unchanged; otherwise the configuration loses `class`, gains the live `pagination`, keeps everything else, and the widget named by the old `class` (default LinkPager) renders it |
| ListView.SorterStep | framework/yii/widgets/BaseListView.php:181-191 | with no sort, no sort attributes or no rows: empty output, configuration unchanged; otherwise `class` is removed, the live `sort` injected, the rest kept, and the old `class` (default LinkSorter) renders it |
| ListView.RepeatedPager | framework/yii/widgets/BaseListView.php:172-174 | a second pager render leaves the configuration as the first left it and uses LinkPager whatever class was configured |
| ListView.RepeatedSorter | framework/yii/widgets/BaseListView.php:188-190 | a second sorter render leaves the configuration as the first left it and uses LinkSorter |
| ListView.Section | framework/yii/widgets/BaseListView.php:113-127 | `{summary}` gives the rendered summary, `{items}` the items, `{pager}` and `{sorter}` the widget output with that configuration updated; any other name gives `false` and changes nothing; only `{pager}` touches the pager configuration and only `{sorter}` the sorter's |
| ListView.WidgetsSkippedWhenEmpty | framework/yii/widgets/BaseListView.php:168-169 | with no rows, `{pager}` and `{sorter}` render as empty strings and leave their configurations alone |
| ListView.EmptyText | framework/yii/widgets/BaseListView.php:101 | `empty` unset gives the translated "No results found."; `true` is written as "1", `false` as the empty string, and a string as itself |
| ListView.EmptyBlock | framework/yii/widgets/BaseListView.php:101 | the block is `<div class="empty">`, then the empty text, then `</div>`, and the text can be read back from between the tags |
| ListView.RunContent | framework/yii/widgets/BaseListView.php:94-102 | with rows, or `empty` set to `false`, the content and configurations are those of the layout pass; otherwise the content is the empty block and no configuration changes |
| ListView.NoResultsByDefault | framework/yii/widgets/BaseListView.php:101 | with no rows and `empty` unset, the content is `<div class="empty">` + the translated "No results found." + `</div>` |
| ListView.DefaultLayoutContent | framework/yii/widgets/BaseListView.php:69 | whenever the layout is shown (rows, or `empty` set to `false`), the default layout renders summary, newline, items, newline, pager, and only the pager configuration changes |
| ListView.SecondRunUsesDefaultTag | framework/yii/widgets/BaseListView.php:103 | once `run()` has consumed `tag`, a later run uses `div` |
| Layout.TokenLength | framework/yii/widgets/BaseListView.php:96 | `{\w+}` matches a prefix of length n iff the result is n; no match unless the text starts with `{` |
| Layout.WordRun | framework/yii/widgets/BaseListView.php:96 | the maximal run of `\w` characters from a position |
| Layout.SubstituteTokenStep | framework/yii/widgets/BaseListView.php:96-99 | at a token the pass emits the section's content, or the token itself when the section is unsupported, and resumes after the token with the renderer's new state |
| Layout.SubstituteCharStep | framework/yii/widgets/BaseListView.php:96 | where no token starts, the pass copies one character and keeps the state |
| Layout.SubstituteUnmatchedRun | framework/yii/widgets/BaseListView.php:96 | the first n characters, at none of which a token starts, are copied and the pass continues after them with the same state |
| Layout.SubstituteUnmatchedPrefix | framework/yii/widgets/BaseListView.php:96 | text at which no token starts (a brace opening no word, `{}`, `{a b}`) is copied and calls no renderer, whatever follows it |
| Layout.SubstituteText | framework/yii/widgets/BaseListView.php:96 | text without `{` is copied unchanged and calls no renderer |
| Layout.SubstituteToken | framework/yii/widgets/BaseListView.php:96-99 | a leading `{name}` is rendered once, or kept verbatim when unsupported |
| Layout.BraceBeforeBrace | framework/yii/widgets/BaseListView.php:96 | a brace followed by a brace opens no token: it is copied and the scan moves on by one character |
| Layout.NestedToken | framework/yii/widgets/BaseListView.php:96-99 | in `{` + `{name}` + rest only the inner token is rendered (or kept when unsupported) and the outer brace is copied, as in `{{items}}` |
| Layout.SubstitutePieces | framework/yii/widgets/BaseListView.php:96-99 | for any layout spelled from text and tokens, the pass equals rendering the tokens in order and copying the text between them |
| Layout.DefaultPiecesRendered | framework/yii/widgets/BaseListView.php:69 | the default layout's pieces render as summary, newline, items, newline, pager, with the state the pager leaves |
| Layout.DefaultLayoutExample | framework/yii/widgets/BaseListView.php:69 | with sections answering S, I and P, the default layout renders as "S\nI\nP" |
| Layout.UnsupportedTokenExample | framework/yii/widgets/BaseListView.php:98 | in "{items} {foo}", `{foo}` is kept verbatim next to the rendered items |
| Strings.LongestFrom | framework/yii/widgets/BaseListView.php:151 | `strtr` picks a key that starts the text and is at least as long as every other such key; there is none iff no key starts the text |
| Strings.StrtrKeyFree | framework/yii/widgets/BaseListView.php:151 | `strtr` leaves a text in which no key occurs unchanged |
| Strings.StrtrUnmatchedRun | framework/yii/widgets/BaseListView.php:151 | the first n characters, at none of which a key starts, are copied and the pass continues after them |
| Strings.StrtrUnmatchedPrefix | framework/yii/widgets/BaseListView.php:151 | text at which no key starts is copied and the pass goes on with what follows, whatever that is |
| Strings.StrtrAtKey | framework/yii/widgets/BaseListView.php:151 | with prefix-free keys, a key at the front is replaced by its value and the scan resumes after it |
| Summary.DisplayOf | framework/yii/widgets/BaseListView.php:134-146 | `count` is the page's count and `end - begin + 1 == count`; without pagination or rows, begin, page and page count are 1 and the total is the count |
| Summary.PagedDisplay | framework/yii/widgets/BaseListView.php:135-140 | with pagination and rows, `begin - 1 == page * pageSize`, the shown page is the 0-based page plus one, and page count and total come from the provider |
| Summary.DisplayInRange | framework/yii/widgets/BaseListView.php:134-146 | for a consistent provider, `1 <= page <= pageCount`, and with rows `1 <= begin <= end <= totalCount` |
| Summary.SecondPageExample | framework/yii/widgets/BaseListView.php:135-140 | page index 1 of size 5 with 5 of 50 rows shows 6-10 of 50, page 2 of 10 |
| Summary.Digits | framework/yii/widgets/BaseListView.php:151-158 | the decimal form of a natural number is non-empty and all digits, with one digit exactly below ten |
| Summary.DigitsNoLeadingZero | framework/yii/widgets/BaseListView.php:151-158 | a decimal form starts with `0` only for the number 0, as PHP writes integers |
| Summary.Decimal | framework/yii/widgets/BaseListView.php:151-158 | PHP's integer-to-string form is non-empty, made of digits and `-`, and starts with `-` iff the number is negative |
| Summary.DigitsRoundTrip | framework/yii/widgets/BaseListView.php:151-158 | reading back the decimal digits of n gives n |
| Summary.DecimalRoundTrip | framework/yii/widgets/BaseListView.php:151-158 | every number substituted into a summary reads back as itself |
| Summary.Template | framework/yii/widgets/BaseListView.php:141-148 | a configured summary is used as it is; otherwise the translated "Showing ..." message (paged, given the total count) or "Total ..." message (unpaged, given the count) wrapped in `<div class="summary">` ... `</div>` |
| Summary.Render | framework/yii/widgets/BaseListView.php:132-159 | none of the six tokens occurs in the rendered summary; a configured summary without any of them is returned as it is |
| Summary.TokensShape | framework/yii/widgets/BaseListView.php:151-158 | the six keys open with `{`, are followed by no brace or number character, and none is a prefix of another; each value is a non-empty number |
| Summary.FillToken | framework/yii/widgets/BaseListView.php:151-158 | each of the six tokens is replaced by its number, and substitution resumes after it |
| Summary.FillPlainText | framework/yii/widgets/BaseListView.php:151 | text without `{` is copied unchanged |
| Summary.FillKeyFree | framework/yii/widgets/BaseListView.php:151 | a template in which no token occurs comes back unchanged |
| Summary.FillCopiesKeyTail | framework/yii/widgets/BaseListView.php:151 | output characters that cannot belong to a number were copied from the template |
| Summary.FillLeavesNoToken | framework/yii/widgets/BaseListView.php:151-158 | after substitution none of the six tokens occurs anywhere in the summary |
| Summary.UnknownTokenKept | framework/yii/widgets/BaseListView.php:151-158 | an unknown `{foo}` survives substitution unchanged |
| Summary.FillRange | framework/yii/widgets/BaseListView.php:151-158 | a template `a{begin}b{end}c{totalCount}tail` becomes a, begin, b, end, c, total, tail, with the plain text kept |
| Summary.SecondPageSummaryExample | framework/yii/widgets/BaseListView.php:132-159 | the second page of five out of fifty renders such a template as a 6 b 10 c 50 tail |
| Summary.MixedTemplateExample | framework/yii/widgets/BaseListView.php:151-158 | in "{foo} " + `{begin}` + a token-free tail, `{foo}` and the space are kept, `{begin}` becomes its number and the tail is copied |

## Left out

- Output: `echo Html::tag($tag, $content, $this->options)` is not modelled. `Run` returns the tag and the content, and leaves `options` without `tag`.
- `$this->dataProvider->prepare()` in `init()` is a call into the data provider. Its effect on the provider is not modelled. `Init` only decides the exception.
- `renderItems()` is abstract. Its output is a parameter (`Collaborators.items`).
- `Yii::t` is a parameter: `Summary.Messages` gives the two default summary templates, and `Collaborators.noResults` the "No results found." text. ICU plural formatting inside those messages is not modelled.
- `LinkPager::widget` and `LinkSorter::widget` are not modelled. They are one function of the class and the configuration (`Collaborators.widget`).
- Pagination's own clamping of `getPage()` is not modelled. The model takes the page as the provider reports it.
- PCRE: the token pattern is modelled with ASCII `\w`, as without the Unicode flag.
- Strings are sequences of characters. PHP byte strings and multibyte text are not distinguished.
- `renderSection()` returning a non-string from a subclass override is not modelled.
- Summary.DisplayOf: integers are unbounded. PHP turns an integer that overflows (`page * pageSize + 1` beyond `PHP_INT_MAX`) into a float, and `strtr` then writes it in float notation. That is not modelled.
- Layout.Substitute, Strings.Strtr, Summary.Fill: carry no contract of their own. A quantified contract on these recursive passes multiplies the cost of every proof that unfolds them. Their properties are the step and prefix lemmas in the table.

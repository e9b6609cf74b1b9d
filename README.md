# wiki: a verified model of the MediaWiki client's core

This project models the sequential logic of `wiki`, a JavaScript client for the MediaWiki
API. It covers four parts:

- **Infobox parsers.** There are two. `src/wiki-markup-parser.js` parses raw wikitext.
  `src/parser/index.js` parses a `query` response holding one page's latest revision, with
  its helpers in `src/parser/utils.js`. Both find the `{{Infobox …}}` span and strip comments,
  references, HTML tags and `{{refn}}` templates. They then split the span into `name = value`
  fields and rewrite wikilinks and a fixed set of inline templates in every value.
- **Coordinates and derived fields.** `src/coordinates.js` reads a page's latitude and
  longitude from its infobox. `src/determiners.js` computes a person's `age` from `birth_date`.
- **Requests.** `src/util.js` builds query maps, rejects API errors, follows continuation
  tokens and aggregates batches. `src/wiki.js` and `src/page.js` do the same for the
  `Wiki`/`WikiPage` objects and the page closures. `src/chain.js` holds the `QueryChain` builder.
- **Section tree.** `src/util.js` turns `== Heading ==` text into a nested section outline.

Every HTTP response is an input value. A promise chain that calls `next()` again and again is
a loop over a finite list of responses. Every regular expression the source uses is a
hand-written scanner over `seq<char>` that follows the backtracking order of JavaScript's
engine. A `.` in those patterns matches any character except the four line terminators of
ECMA-262: '\n', '\r', U+2028 and U+2029.

## Layout

| module (file) | source |
|---|---|
| `JsString` (js_string.dfy) | the `String.prototype` methods the source calls: `trim`, `indexOf`, `split`, `join`, `replace` with a string, `substr`, `substring` |
| `Patterns` (patterns.dfy) | the fixed regular expressions of both parsers, as scanners, and global `replace`/`match` |
| `ParserUtils` (parser_utils.dfy) | src/parser/utils.js |
| `InfoboxText` (infobox_text.dfy) | what both parsers share: the infobox `exec`, the scrubbing, the value rewrites, `result[name] = value` |
| `MarkupParser` (markup_parser.dfy) | src/wiki-markup-parser.js |
| `ResponseParser` (response_parser.dfy) | src/parser/index.js |
| `Metadata` (metadata.dfy) | infobox records as JavaScript values: property access, truthiness, `Number(...)` |
| `CoordinatePattern` (coordinate_pattern.dfy) | the coordinate regular expression of src/coordinates.js |
| `Coordinates` (coordinates.dfy) | src/coordinates.js |
| `Determiners` (determiners.dfy) | src/determiners.js |
| `Json` (json.dfy) | response values, property reads that throw on undefined/null, underscore's `pluck`/`flatten` |
| `Util` (util.dfy) | src/util.js: `api`, `pagination`, `aggregatePagination`, `aggregate` |
| `Sections` (sections.dfy) | src/util.js: `getHeadings`, `parseContent` |
| `Page` (page.dfy) | src/page.js; `info`, `images` and `coordinates` are the same code in src/wiki.js |
| `Wiki` (wiki.dfy) | src/wiki.js: `api`, `pagination`, `aggregatePagination`, `search`, `page` with underscore's `findKey`, the `WikiPage` listings |
| `Chain` (chain.dfy) | src/chain.js |

Code that updates state step by step is modelled as methods:
- the parsers' rewrites, the `forEach` loops and the `while` loops;
- the module-level global regexes and their `lastIndex`, as classes `MarkupParser.InfoboxRegex` and `Sections.HeadingRegex`;
- the shared, mutated `params` object, as class `Util.Params`;
- `QueryChain`, as class `Chain.QueryChain`.

Each method is proved equal to a specification function, and the properties are lemmas about
those functions.

## Model

| member | source | states |
|---|---|---|
| JsString.Trim | src/wiki-markup-parser.js:38-39 | `trim` leaves no white space at either end and never lengthens the text |
| JsString.TrimIs | src/parser/index.js:124-125 | trimming keeps exactly the text from the first to the last character that is not white space |
| JsString.IndexFrom | src/parser/index.js:122 | `indexOf` gives the leftmost occurrence at or after the start, and -1 exactly when there is none; the empty string is found at the start, clamped to the length |
| JsString.Split | src/wiki-markup-parser.js:33-34 | `split` always gives at least one part |
| JsString.JoinSplit | src/parser/index.js:85 | joining the parts of a split with the same separator gives the text back |
| JsString.SplitJoinChar | src/chain.js:69 | splitting a list joined with `\|`, whose elements hold no `\|`, gives the list back |
| JsString.Substr | src/wiki-markup-parser.js:49 | `substr(start, len)` is the slice of `len` characters from `start` when it fits |
| JsString.Substring | src/util.js:113-114 | `substring(a, b)` is the slice `[a, b)` when the bounds are in order |
| JsString.ReplaceFirstShrinks | src/wiki-markup-parser.js:59-60 | replacing the first occurrence by "" removes exactly that many characters, and nothing when there is none |
| Patterns.LineEnd | src/wiki-markup-parser.js:23 | a run of `.` stops at the first of '\n', '\r', U+2028 and U+2029 and holds none of them |
| Patterns.BreakEnd | src/wiki-markup-parser.js:1 | a run of `(.\|\n)` stops at the first '\r', U+2028 or U+2029 and holds none of them |
| Patterns.InfoboxAt | src/wiki-markup-parser.js:1 | a match of `{{[Ii]nfobox(.\|\n)*}}` opens with `{{Infobox` or `{{infobox` and ends at the last `}}` before the first '\r', U+2028 or U+2029 after the opener; with no `}}` there it fails |
| Patterns.CommentAt | src/wiki-markup-parser.js:23 | a comment match runs from `<!--` to a `-->` on the same line |
| Patterns.RefAt | src/wiki-markup-parser.js:25 | a reference match starts with `<ref` and ends inside the text |
| Patterns.TagAt | src/wiki-markup-parser.js:27 | a tag match is `<`, at least one character that is not `>`, then `>` |
| Patterns.TemplateAt | src/wiki-markup-parser.js:29 | a `{{name…}}` match ends at the first `}}` and holds no `}` inside |
| Patterns.WikilinkAt | src/wiki-markup-parser.js:43 | the lazy `[[.*?]]` ends at the first `]]` after the opening |
| Patterns.ListTemplateAt | src/parser/index.js:80 | a list block match opens with `{{` and ends inside the text |
| Patterns.UrlTemplateAt | src/parser/index.js:92 | a URL template match opens with `{{URL` and ends with `}}` |
| Patterns.StartDateAt | src/parser/index.js:103 | a start-date match opens with `{{Start` and ends with `}}` |
| Patterns.FindFrom | src/parser/utils.js:16 | a global search finds the leftmost match at or after its start, and nothing only when no position matches |
| Patterns.ReplaceWithoutMatch | src/parser/utils.js:16 | a global replace with no match leaves the text unchanged |
| ParserUtils.ReplaceAll | src/parser/utils.js:14-20 | null exactly for a missing or empty input; otherwise the replaced text trimmed at both ends, never longer than the replaced text |
| ParserUtils.ReplaceAllBlank | src/parser/utils.js:16 | a non-empty input that the replacement reduces to white space gives "", not null |
| ParserUtils.ReplaceAllWithoutMatch | src/parser/utils.js:16 | where the pattern never matches, only the trimming is left |
| ParserUtils.NbspReplaced | src/parser/index.js:217 | after `replaceAll('&nbsp', ' ', v)` no `&nbsp` is left |
| ParserUtils.CheckJson | src/parser/utils.js:28-36 | missing or empty text is never valid, and a valid text passes the shape test |
| InfoboxText.ExecInfobox | src/wiki-markup-parser.js:1-14 | `exec` fails exactly when no infobox starts at or after `lastIndex`, and then resets `lastIndex` to 0; a match is the leftmost one, and `lastIndex` moves to its end |
| InfoboxText.ExecInfoboxOpens | src/wiki-markup-parser.js:14-20 | the span found starts with `{{Infobox` or `{{infobox` |
| InfoboxText.ExecInfoboxCloses | src/wiki-markup-parser.js:14-20 | the span holds no '\r', U+2028 or U+2029 and ends with `}}`, and no `}}` ends between it and the next such terminator |
| InfoboxText.InfoboxSpanClean | src/wiki-markup-parser.js:1 | the span a match covers holds no '\r', U+2028 or U+2029, ends with `}}`, and no `}}` ends between it and the next such terminator |
| InfoboxText.ExecAfterMatchFails | src/wiki-markup-parser.js:1-14 | when no '\r', U+2028 or U+2029 follows a match, the same regex finds nothing more in the same input, and resets to 0 |
| InfoboxText.ExecAfterReturnMatches | src/wiki-markup-parser.js:1-14 | with a '\r' after the first infobox, the next `exec` finds the second one |
| InfoboxText.ScrubKeepsOpener | src/wiki-markup-parser.js:22-29 | scrubbing an infobox span never empties it: its first three characters survive every step |
| InfoboxText.ScrubbedSpan | src/parser/index.js:57-74 | the span `exec` finds scrubs to a text that still starts with `{{I` or `{{i` |
| InfoboxText.ReplaceKeepsPrefix | src/parser/utils.js:16 | a global replace keeps the text before the first match |
| InfoboxText.Strip | src/wiki-markup-parser.js:58-66 | the `nowrap`/`small` loop ends with no opener left, never lengthens the value, and strictly shrinks it while an opener is there |
| InfoboxText.StripWrapper | src/parser/index.js:170-178 | the `while` loop computes `Strip` |
| InfoboxText.RewriteEach | src/wiki-markup-parser.js:43-55 | the `match(/…/g)` + `forEach` rewrite computes its specification step |
| InfoboxText.RewriteTemplate | src/wiki-markup-parser.js:68-123 | the guarded template rewrites (`native`, `unbulleted`, `hlist`, `efn`) compute their specification step |
| InfoboxText.RewriteVunblist | src/wiki-markup-parser.js:91-101 | the `vunblist` rewrite computes its specification step, guard included |
| InfoboxText.ReplaceEach | src/parser/index.js:133-141 | the `forEach` over matches replaces each match's first occurrence in turn |
| InfoboxText.StepNext | src/parser/index.js:131-218 | running the value rewrites from step `k` is step `k` followed by the rest |
| InfoboxText.ApplyStepsEmpty | src/wiki-markup-parser.js:125-126 | no rewrite changes an empty value |
| InfoboxText.EmptyValueIsNull | src/parser/index.js:217-219 | a value that ends up empty is stored as null |
| InfoboxText.AssignNext | src/wiki-markup-parser.js:127 | `result[name] = value` for one more entry updates that key only, except that `__proto__` goes to the inherited setter while the object still has `Object.prototype`: no key, and a null value drops the prototype |
| InfoboxText.InheritingHasNoProtoKey | src/wiki-markup-parser.js:127 | while the object inherits from `Object.prototype` it has no own `__proto__` key |
| InfoboxText.AssignKeys | src/wiki-markup-parser.js:127 | a field name other than `__proto__` is in the result exactly when some entry carries it; `__proto__` exactly when an entry carries it after an earlier null `__proto__` entry |
| InfoboxText.AssignLastWins | src/wiki-markup-parser.js:127 | a repeated field name keeps the value of its last occurrence, except a last `__proto__` reached while the object inherits, which is stored nowhere |
| InfoboxText.ProtoFieldDropped | src/parser/index.js:219-223 | a `__proto__` field with a string value is not among the result's fields, so `JSON.stringify` never emits it |
| InfoboxText.ProtoAfterNull | src/wiki-markup-parser.js:127 | after a null `__proto__` value the object has no prototype and a later `__proto__` becomes an own field |
| InfoboxText.LinkWithoutPipe | src/wiki-markup-parser.js:47-49 | a link with no pipe becomes its inner text |
| InfoboxText.LinkWithOnePipe | src/wiki-markup-parser.js:50-52 | a link with one pipe becomes the text after the pipe |
| InfoboxText.LinkWithPipes | src/wiki-markup-parser.js:46-53 | a link with two or more pipes is left unchanged |
| InfoboxText.LinkLastSegmentOf | src/parser/index.js:133-141 | every link becomes the segment after its last pipe, or its inner text when it has none |
| InfoboxText.ListTemplateArgs | src/wiki-markup-parser.js:79-113 | a list template (`hlist`, `unbulleted`, `vunblist`) becomes its arguments after the name, joined with `,` |
| InfoboxText.VunblistNeedsSingleTemplate | src/wiki-markup-parser.js:91-92 | with two or more `{{` in the value, `vunblist` templates are left unchanged |
| InfoboxText.UrlLastArg | src/parser/index.js:92-98 | `{{URL…}}` becomes its last pipe argument |
| InfoboxText.StartDateJoined | src/parser/index.js:103-111 | `{{Start date\|…}}` becomes its arguments after the name, joined with `/` |
| InfoboxText.UnbracedParts | src/parser/index.js:95 | a template whose parts hold no `\|` or `}` loses its braces cleanly and splits back into its parts |
| MarkupParser.InfoboxRegex.constructor | src/wiki-markup-parser.js:1 | the module-level regex starts at `lastIndex` 0 |
| MarkupParser.InfoboxRegex.Exec | src/wiki-markup-parser.js:14 | `exec` returns the span and moves `lastIndex` as `ExecInfobox` says, starting from the `lastIndex` it had |
| MarkupParser.RewriteValue | src/wiki-markup-parser.js:41-126 | the value rewrites, run statement by statement, compute the value's specification |
| MarkupParser.ParseItem | src/wiki-markup-parser.js:34-40 | an item becomes an entry exactly as its specification says |
| MarkupParser.CollectFields | src/wiki-markup-parser.js:33-129 | the `forEach` over the items fills `result` as `Assign` says, tracking whether the object still inherits |
| MarkupParser.Parse | src/wiki-markup-parser.js:11-133 | the default export, with the shared regex resuming at its `lastIndex`: `{}` without a match, else the fields of the scrubbed span |
| MarkupParser.ParseFromStart | src/wiki-markup-parser.js:11-133 | with the regex rewound, the result depends on the wikitext alone |
| MarkupParser.ParseTwice | src/wiki-markup-parser.js:1-18 | two parses of the same wikitext, whose only line terminator is '\n', through the shared regex: the second returns `{}` |
| MarkupParser.NoInfoboxNoFields | src/wiki-markup-parser.js:16-18 | with no infobox at or after `lastIndex`, the result is the empty object |
| MarkupParser.UnspacedItemDropped | src/wiki-markup-parser.js:34-36 | an item without ` = ` (such as `name=Dublin`) is dropped |
| MarkupParser.TwiceSpacedItemDropped | src/wiki-markup-parser.js:34-36 | an item holding ` = ` twice is dropped |
| MarkupParser.OnceSpacedItem | src/wiki-markup-parser.js:36-39 | with exactly one ` = `, the name is the trimmed left part and the value is the first line of the trimmed right part |
| ResponseParser.Keys | src/parser/index.js:31 | `Object.keys(pages)` lists the page keys in order |
| ResponseParser.RewriteText | src/parser/index.js:76-111 | the list, URL and start-date rewrites of the whole text compute their specification |
| ResponseParser.RewriteValue | src/parser/index.js:131-218 | the value rewrites compute the value's specification |
| ResponseParser.ParseItem | src/parser/index.js:122-125 | an item becomes an entry as its specification says |
| ResponseParser.CollectFields | src/parser/index.js:117-221 | the `forEach` fills `result` as `Assign` says, tracking whether the object still inherits |
| ResponseParser.Parse | src/parser/index.js:9-225 | the parser, early returns included, computes the response's outcome |
| ResponseParser.ParseWikitext | src/parser/index.js:47-221 | the part after the shape checks computes the wikitext's outcome |
| ResponseParser.JoinedKeyLookup | src/parser/index.js:31-36 | `json[key]` with the key array finds the only page's record, and nothing when there are zero or several keys |
| ResponseParser.MalformedIff | src/parser/index.js:33-38 | `Malformed Response Payload` exactly when the first key is not `-1` and the pages are not a single truthy record |
| ResponseParser.PageNeverMalformed | src/parser/index.js:36-49 | the checks after the lookup never report a malformed payload |
| ResponseParser.OnePageOutcome | src/parser/index.js:30-42 | with one page keyed other than `-1`, the outcome is that page's |
| ResponseParser.QueryNotFoundIff | src/parser/index.js:25 | `Query Not Found` exactly when the parsed response has no `query` |
| ResponseParser.RedirectIff | src/parser/index.js:39-41 | a redirect error is reported exactly when the page's wikitext mentions `REDIRECT` anywhere, and its message is the whole wikitext |
| ResponseParser.WikitextFailsOnlyWithoutInfobox | src/parser/index.js:47-50 | after the shape checks the parser fails only with `Infobox Not Found`, and exactly when there is no infobox |
| ResponseParser.ParsedIff | src/parser/index.js:25-50 | fields come back exactly when there is one page, keyed other than `-1`, whose first revision is not a redirect and holds an infobox |
| ResponseParser.ThrownIff | src/parser/index.js:25-48 | the parser throws instead of calling back exactly when `JSON.parse` gives null, when `query.pages` is missing, or when the one page has no first revision with wikitext |
| ResponseParser.ItemCutAtFirstEquals | src/parser/index.js:122-125 | an item is cut at its first `=`; a later `=` stays in the value |
| ResponseParser.ItemWithoutEquals | src/parser/index.js:123 | an item without `=` contributes nothing |
| ResponseParser.BlankValueIsNull | src/parser/index.js:217-219 | an item whose value is blank is kept, with the value null |
| ResponseParser.EmptyResponseValue | src/parser/utils.js:15-19 | an empty value line is stored as null |
| Metadata.Get | src/coordinates.js:8 | a missing property reads as undefined |
| Metadata.DigitsNumber | src/coordinates.js:120 | `Number` of a string of digits is its decimal value |
| CoordinatePattern.HalfAtComplete | src/coordinates.js:47 | every way one half of the pattern can lie at an index is the one the engine finds there |
| CoordinatePattern.HalfAtSound | src/coordinates.js:47 | the half the engine finds lies at that index |
| CoordinatePattern.HalfMatchesShape | src/coordinates.js:47 | the engine finds a half exactly when one lies there with those captures, so no backtracking into a half is needed |
| CoordinatePattern.ShapeUnique | src/coordinates.js:47 | a half lies at an index with at most one set of captures |
| CoordinatePattern.ShapeGroups | src/coordinates.js:47 | a half fits in the text and captures digits, digits, optional digits and a compass letter |
| CoordinatePattern.PatternTryMatches | src/coordinates.js:47 | the pattern tried at an index finds exactly the captures with which it lies there |
| CoordinatePattern.FirstMatchLeftmost | src/coordinates.js:59 | a non-global `match` finds the leftmost index where the pattern matches, and nothing only when no index matches |
| CoordinatePattern.SearchSound | src/coordinates.js:59 | what the search finds lies there, and the pattern fails at every earlier index |
| CoordinatePattern.SearchLeftmost | src/coordinates.js:59 | the search finds given captures exactly when the pattern lies there and fails before |
| CoordinatePattern.SearchNone | src/coordinates.js:59 | `match` gives null exactly when the pattern fails at every index |
| CoordinatePattern.MatchStartsWithDigit | src/coordinates.js:47 | no match starts at a character that is not a digit |
| CoordinatePattern.CoordinateMatch | src/coordinates.js:47-59 | the match array has the text and eight groups: two well-formed halves of degrees, minutes, optional seconds and a letter |
| CoordinatePattern.HalfSpelled | src/coordinates.js:47 | a half lies at an index exactly when the text there spells its groups |
| CoordinatePattern.SpelledPattern | src/coordinates.js:47 | where the whole pattern is spelled it lies, with the two halves as its groups |
| CoordinatePattern.MatchSpelled | src/coordinates.js:59 | a string whose first digit begins a spelled pattern matches with those groups |
| Coordinates.ParseCoordinatesAsWritten | src/coordinates.js:7-19 | `parseCoordinates` as written, over the as-written parsers: the error object exactly when neither `coordinates` nor both `latd` and `longd` are truthy; a throw only on the `coordinates` path |
| Coordinates.ParseCoordinatesCorrected | src/coordinates.js:7-19 | corrected: the same dispatch and the same three promises, over the parsers that keep the latitude's letter and read `latNS`/`longEW` |
| Coordinates.CorrectionKeepsOutcome | src/coordinates.js:7-19 | the correction changes only numbers: both versions locate, report the error object or throw on the same records, with the same longitude on the `coordinates` path |
| Coordinates.CoordinatesShadowDeprecated | src/coordinates.js:8-10 | while `coordinates` is truthy, no other field changes the result, as written and corrected |
| Coordinates.DeprecatedWhenNoCoordinates | src/coordinates.js:11-13 | without `coordinates`, truthy `latd` and `longd` select the deprecated fields: as written the parser reading `latNs`/`longEw`, corrected the one reading `latNS`/`longEW` |
| Coordinates.UnmatchedCoordinatesThrow | src/coordinates.js:59-60 | a `coordinates` string that the pattern does not match throws, as written and corrected |
| Coordinates.Round4Close | src/coordinates.js:104-108 | rounding to four places moves a value by at most half a unit in the fourth place |
| Coordinates.Round4Sign | src/coordinates.js:106-107 | rounding keeps the sign and is symmetric about zero |
| Coordinates.FloatOrDefaultExamples | src/coordinates.js:115 | `floatOrDefault("5") == 5` and `floatOrDefault(undefined) == 0` |
| Coordinates.OptionalNumeralValue | src/coordinates.js:119-122 | a group of digits reads as a non-negative number, and an unmatched group as 0 |
| Coordinates.DmsExample | src/coordinates.js:89 | `dmsToDecimal(100,39,58,'W')` is -100.66611…, or -100.6661 once rounded |
| Coordinates.DmsProduct | src/coordinates.js:83-94 | `dmsToDecimal` is the sum of the parts times -1 for `S`/`W` and +1 for `N`, `E` and any value that names no `Object.prototype` property |
| Coordinates.HalfSign | src/coordinates.js:75-80 | a matched half converts to a number whose sign is its direction's |
| Coordinates.SliceDropsDirection | src/coordinates.js:60 | `slice(0,4)` ends before the latitude's letter: it gives the magnitude that the letter would have negated |
| Coordinates.UnsignedSlice | src/coordinates.js:60-80 | the first four elements of a match array convert to a non-negative number |
| Coordinates.AsWrittenLatitudeUnsigned | src/coordinates.js:57-62 | as written, an infobox latitude is never negative |
| Coordinates.LatitudeFollowsDirection | src/coordinates.js:57-62 | reading the letter, a latitude is south of the equator exactly as `S` says |
| Coordinates.LongitudeFollowsDirection | src/coordinates.js:61 | a longitude is west exactly as `W` says |
| Coordinates.CatanzaroCoordinates | src/coordinates.js:57-62 | `{{coord\|38\|54\|N\|16\|36\|E\|…}}` gives 38.9, 16.6, as written and corrected (the values the library's Catanzaro test expects) |
| Coordinates.SydneyCoordinates | src/coordinates.js:57-62 | `{{coord\|33\|52\|S\|151\|12\|E\|…}}`: as written the latitude is 33.8667 north; read with its letter it is south |
| Coordinates.SolokCoordinates | src/coordinates.js:25-43 | Solok's deprecated fields, in the `latNS`/`longEW` spelling of the function's own example: `parseCoordinates` as written gives 0.7997 north, corrected -0.7997 (the value the library's skipped Solok test expects) |
| Coordinates.DeprecatedLettersIgnored | src/coordinates.js:30-43 | as written, the deprecated format's own `latNS`/`longEW` letters never change the result |
| Coordinates.DeprecatedLatitudeFollowsDirection | src/coordinates.js:30-36 | reading `latNS`, a latitude with non-negative parts is south exactly when the letter is `S` |
| Determiners.DateAtIff | src/determiners.js:1 | `(\d+)\|(\d+)\|(\d+)` matches at an index exactly when three digit runs separated by `\|` are spelled there, with the runs taken whole |
| Determiners.DateAtComplete | src/determiners.js:1 | wherever a date is spelled, the pattern finds exactly those groups |
| Determiners.DateSearchIndex | src/determiners.js:9 | `match` finds the date at the leftmost start where the pattern matches |
| Determiners.DateSearchNone | src/determiners.js:9-12 | `match` gives null exactly when the pattern matches nowhere |
| Determiners.DateSearchFinds | src/determiners.js:9 | a search that meets a spelled date with none before it finds that date |
| Determiners.YearsBetweenFloor | src/determiners.js:2-15 | the age is the largest number of whole 365-day years from the birth instant to now |
| Determiners.Age | src/determiners.js:5-16 | undefined without a truthy `birth_date` or without a date in it; otherwise a whole number of years |
| Determiners.AgeUndefinedIff | src/determiners.js:6-12 | `age` is undefined exactly when `birth_date` is falsy or holds no `d\|d\|d` date |
| Determiners.AgeWholeYears | src/determiners.js:13-15 | with the leftmost date spelled as year, month, day, `age` counts the whole years from that date |
| Determiners.DateGroupsInOrder | src/determiners.js:13-14 | the groups are read in order as year, month and day |
| Determiners.TemplateBirthDate | src/determiners.js:9-15 | a birth date inside a `{{birth date and age\|…}}` template is found after the template's name |
| Json.Prop | src/page.js:175 | a property read throws a TypeError exactly on undefined and null, and reads an object's field |
| Json.First | src/page.js:175 | `[0]` throws on undefined and null, gives the first element of a non-empty array and undefined for an empty one |
| Json.LookupFirst | src/wiki.js:132 | a key's value is that of its first field; without one it is undefined |
| Json.Values | src/chain.js:95 | `Object.values` throws on undefined and null and lists an object's values in order |
| Json.Elements | src/page.js:94-95 | underscore visits an array's elements, an object's values, nothing for undefined and null |
| Json.Pluck | src/page.js:135 | `_.pluck` reads the key of every element, in order |
| Json.Flatten | src/page.js:96 | `_.flatten` leaves no array in its result |
| Json.FlattenAppend | src/page.js:96 | flattening distributes over concatenation |
| Json.FlattenIdempotent | src/page.js:96 | flattening twice is flattening once |
| Json.MapPropMeaning | src/chain.js:8 | `arr.map(e => e[key])` reads every element's key in order and throws exactly when the array is missing or an element is undefined or null |
| Json.Path | src/page.js:175 | a chain of property reads can only throw a TypeError |
| Json.PathReaches | src/page.js:175 | a chain of reads that ends on a value other than undefined or null never threw on the way |
| Json.PathStuckThrows | src/page.js:175 | a chain of reads that passes through undefined or null before its last key throws |
| Util.Params.constructor | src/util.js:42 | the params object a chain shares starts with the caller's entries |
| Util.BuildQuery | src/util.js:11-27 | `api` builds the defaults overridden by the caller's params, without undefined values, with `origin` when it is truthy |
| Util.DropUndefined | src/util.js:19-24 | the loop deletes exactly the undefined entries |
| Util.QueryMapKeys | src/util.js:11-27 | key by key: `origin` when the option is truthy, else a defined caller value, else the default `format=json`, `action=query`, `redirects=''` |
| Util.QueryMapDefined | src/util.js:19-24 | no value in the query is undefined |
| Util.CheckResponseMeaning | src/util.js:34-39 | a response with a truthy `error` throws `Error(error.info)`; any other response is returned unchanged |
| Util.FirstOther | src/util.js:48-50 | the continue type is a key of `res.continue` other than `continue`, or `undefined` when there is none |
| Util.FirstOtherIsFirst | src/util.js:48-50 | the continue type is the first key other than `continue` |
| Util.Pagination | src/util.js:42-57 | one call sends the query map of the params it finds and resolves, and leaves the params, as its step says |
| Util.StepResolves | src/util.js:43-55 | a call resolves to the parsed results and `params.srsearch`; `next` exists exactly when `res.continue` is truthy, after the token is written under the continue type |
| Util.StepThrows | src/util.js:34-37 | a call that throws leaves the params as they were; an API error throws its `info` |
| Util.RunStops | src/util.js:59-68 | a chain stops at a call that throws or offers no `next` |
| Util.AggregateConcat | src/util.js:59-68 | a complete chain aggregates to the previous results followed by every batch's results, in fetch order |
| Util.AggregateStops | src/util.js:62-66 | aggregation stops at the first batch without `next`; later batches are never read |
| Util.AggregatePrefix | src/util.js:59-68 | batches with `next` are accumulated in order before the rest is aggregated |
| Util.AggregateFails | src/util.js:59-60 | a chain whose call throws reports that call's error |
| Util.AggregateOpen | src/util.js:62-63 | while every batch offers `next`, the aggregation has not finished |
| Util.AggregateLast | src/util.js:62-66 | a chain ends at its first call that throws or offers no `next` |
| Util.Paginate | src/util.js:42-68 | following a chain over the responses is a run of `pagination` calls on the shared params, aggregated as `aggregatePagination` says |
| Util.CloseRun | src/util.js:62-66 | a call that throws or offers no `next` closes the run and aggregation ends there |
| Util.ExtendRun | src/util.js:61-63 | a call with `next` extends the run and appends its results |
| Util.NextFrom | src/util.js:79-81 | the token is `continueWith[list][prefix+'from']` when truthy, else `continueWith[prefix+'continue']` |
| Util.Aggregate | src/util.js:72-88 | `aggregate` over the responses returns the collected keys and the query each round sends, and leaves the params as the rounds say |
| Util.Round | src/util.js:73-84 | one call sends the query of the params with `list` and the limit set, reads the batch or fails with the read's error, and writes the token only when a continuation is truthy |
| Util.AggregateSentRounds | src/util.js:75-87 | one query per response read: at most one per response, at least one, and exactly one per response over a chain read to its end |
| Util.AggregateSentList | src/util.js:73-75 | every query sent names the list and asks for 500 entries |
| Util.AggregateSentTokens | src/util.js:77-85 | each query after the first carries the previous response's token under `<prefix>continue` and `<prefix>from` |
| Util.SecondQuery | src/util.js:77-85 | the second query carries the first response's token |
| Util.ContinuedQuery | src/util.js:77-85 | the query after a continued round carries its token under both names |
| Util.QueryGet | src/util.js:11-27 | a name other than `origin` and the defaults reads the same in the query as in the params |
| Util.RoundNamesPlain | src/util.js:73-83 | the names a round writes are neither `origin` nor a default |
| Util.AggregateCollects | src/util.js:76-86 | over readable responses `aggregate` returns the previous results followed by every batch's keys, in order |
| Util.AggregateSetsList | src/util.js:70-74 | every round leaves `list` and `<prefix>limit = 500` in the params |
| Util.ContinuedRound | src/util.js:77-84 | after a continued round the same token stands under `<prefix>continue` and `<prefix>from` |
| Util.NamesApart | src/util.js:73-83 | the four names a round writes are distinct |
| Sections.RunEnd | src/util.js:90 | the greedy `==+` ends at the first character that is not `=` |
| Sections.Stop | src/util.js:90 | the title group stops at the first `==` or '\n' (`[^]` crosses every other line terminator) |
| Sections.HeadingAt | src/util.js:90-100 | a heading found at an index starts there, ends inside the text and has level 2 or more |
| Sections.HeadingAtMatches | src/util.js:90 | the heading found is a match of the pattern whose opening is the whole run of `=` |
| Sections.MatchFindsHeading | src/util.js:90 | wherever the pattern matches, in any way, a heading is found there |
| Sections.SearchLeftmost | src/util.js:95 | `exec` finds the leftmost heading at or after `lastIndex` |
| Sections.HeadingRegex.constructor | src/util.js:90 | the module-level regex starts at `lastIndex` 0 |
| Sections.HeadingRegex.Exec | src/util.js:95 | `exec` returns the next heading and moves `lastIndex` past it, or returns null and resets it |
| Sections.ExecFinds | src/util.js:95 | one `exec` yields the next heading and moves past it, or yields none |
| Sections.GetHeadings | src/util.js:92-104 | `getHeadings` returns the headings in text order and leaves the regex at 0 |
| Sections.HeadingFound | src/util.js:95-101 | each heading found is a match at its start and ends before the next one |
| Sections.HeadingsSkipNothing | src/util.js:95 | no heading starts at a position the search passed over |
| Sections.MinLevel | src/util.js:109 | `Math.min` of the levels is at most each level |
| Sections.MinLevelAttained | src/util.js:109 | the smallest level is some heading's level |
| Sections.LevelsMeaning | src/util.js:118 | a section's level is its heading's level minus the minimum: order and differences kept, the shallowest at 0 |
| Sections.ContentBetween | src/util.js:113-115 | a section's content is the trimmed text from its heading's end to the next heading's start, or to the end |
| Sections.LastLowerNearest | src/util.js:127-131 | the parent found is before the section and lower, and every section between is not lower |
| Sections.ParentOfMeaning | src/util.js:125-133 | a section's parent is the nearest earlier section with a strictly lower level; level 0 has none |
| Sections.LastParentLevel | src/util.js:125-133 | the loop down from `index - 1` finds that parent |
| Sections.SetParents | src/util.js:136-138 | every section gets its parent |
| Sections.ChildrenInMeaning | src/util.js:147-153 | the items of a section are exactly the later sections naming it as parent, in order |
| Sections.Organize | src/util.js:140-153 | the loop pushes each section onto its parent's items, or onto the root's |
| Sections.ParseContent | src/util.js:106-166 | `parseContent` returns the outline built from the headings found |
| Sections.OutlineInOrder | src/util.js:106-166 | reading the outline in document order gives every section once, in order |
| Sections.KidsWithin | src/util.js:147-153 | a section's items are its children inside its range |
| Sections.NodeShape | src/util.js:116-163 | a section is its title and content over its children inside its range |
| Sections.FlatOutline | src/util.js:147-163 | headings of one level give a flat outline: one top-level section per heading, in order, without items |
| Sections.SpacedHeading | src/util.js:90-98 | a line `== title ==` is a heading of level 2 with that title |
| Sections.ExampleOutline | test/util.js:7-15 | the sample text gives the three flat sections the test expects |
| Page.Images | src/page.js:84-102 | throws exactly on an undefined or null response; `[]` when `query` is falsy (also src/wiki.js:216-237) |
| Page.ImagesPerPage | src/page.js:93-98 | with `query`, the urls are those of the first page's images, then the second page's, and so on |
| Page.UrlsPluck | src/page.js:94-98 | `pluck('imageinfo').flatten().pluck('url')` is the page-by-page collection of urls |
| Page.CoordinatesFirst | src/page.js:170-176 | a page with a non-empty `coordinates` array gives its first element (also src/wiki.js:295-301) |
| Page.CoordinatesMissing | src/page.js:175 | a missing page, or a page without `coordinates`, throws a TypeError |
| Page.PluckAtList | src/page.js:135 | an array at the end of the path gives the `title` of each element, in order |
| Page.PluckAtMissing | src/page.js:135-156 | a page without the list gives no results instead of failing |
| Page.Listed | src/page.js:136-139 | a truthy `aggregated` gives the aggregation of the whole chain, a falsy one the first batch |
| Page.Links | src/page.js:129-140 | `links` sends `prop=links`, `plnamespace=0`, `pllimit` (100 when undefined) and aggregates unless `aggregated` is a falsy value other than undefined |
| Page.Categories | src/page.js:151-161 | `categories` sends `prop=categories` with the limit (100 when undefined) as `pllimit` and aggregates unless `aggregated` is a falsy value other than undefined |
| Page.Backlinks | src/page.js:218-228 | `backlinks` sends `list=backlinks`, `bllimit` (100 when undefined), `bltitle` and aggregates unless `aggregated` is a falsy value other than undefined |
| Page.FirstLinks | src/page.js:130-135 | the first batch of links is the titles of the page's `links`, in order |
| Page.NoLinks | src/page.js:135 | a page without `links` gives an empty batch |
| Page.Info | src/page.js:194-208 | the whole record exactly for no key; an own key's value; undefined for a missing key that no determiner computes; a throw only for `age`, for a record without an own `hasOwnProperty` field (also src/wiki.js:316-330) |
| Page.InfoAge | src/page.js:201-207 | asked for `age` without an own `age`: undefined exactly when the determiner gives undefined or 0 years, otherwise that number |
| Page.InfoOwnAge | src/page.js:198-199 | an own `age` property wins over the determiner |
| Wiki.Merged | src/wiki.js:48-51 | `_.extend` keeps the caller's keys, sets `format=json` and `action=query` over them, and changes nothing else |
| Wiki.Api | src/wiki.js:47-52 | the merge happens in the caller's own object, which is also the query sent |
| Wiki.WikiPagination | src/wiki.js:55-70 | one call sends the merged params and resolves, and leaves the params, as its step says |
| Wiki.WikiStepResolves | src/wiki.js:58-67 | a call resolves to the parsed results; `next` exists exactly when `res.continue` is truthy, after the token is written under the continue type |
| Wiki.WikiStepKeepsErrors | src/wiki.js:53 | unlike src/util.js, an API error does not make the call throw |
| Wiki.WikiPaginate | src/wiki.js:55-81 | following a chain is a run of `pagination` calls on the shared params, aggregated in order |
| Wiki.Search | src/wiki.js:95-101 | `search` sends `list=search`, the query and the limit, 50 when undefined |
| Wiki.SearchTitles | src/wiki.js:95-100 | the request asks for `limit` results of the query, and the results are the titles of `query.search`, in order |
| Wiki.FindKeyFirst | src/wiki.js:132 | `_.findKey` finds the key of the first page whose title matches |
| Wiki.FindKeyNone | src/wiki.js:132 | with no page titled so, nothing is found |
| Wiki.PageFound | src/wiki.js:131-137 | the page returned is the first one whose title is exactly the one asked for |
| Wiki.PageNotFound | src/wiki.js:133-134 | when no page has exactly that title, the lookup fails with `No article found` (test/real.js:5-12) |
| Wiki.WikiListed | src/wiki.js:265-269 | a truthy `aggregated` gives the aggregation of the whole chain, a falsy one the first batch |
| Wiki.Links | src/wiki.js:258-270 | `WikiPage.links` over `Wiki.pagination`, with the limit 100 and `aggregated` true when undefined |
| Wiki.Categories | src/wiki.js:278-289 | `WikiPage.categories` over `Wiki.pagination`, with the limit 100 and `aggregated` true when undefined |
| Wiki.Backlinks | src/wiki.js:339-350 | `WikiPage.backlinks` over `Wiki.pagination`, with the limit 100 and `aggregated` true when undefined |
| Chain.Processor | src/chain.js:3-43 | only the seven props with a processor have one; each writes at most one key |
| Chain.ProcessorWrites | src/chain.js:3-43 | the key each processor writes: `extract`, `links`, `extlinks`, `langlinks`, `coordinates`, `categories` or `image` |
| Chain.CoordinatesProcessor | src/chain.js:24-30 | `{}` without `coordinates`, `{coordinates: first}` with a non-empty array |
| Chain.PutLookup | src/chain.js:48 | after `memo[key] = value` the key reads the value and every other key reads as before |
| Chain.AssignKeeps | src/chain.js:48 | `Object.assign` with other keys leaves a key's value alone |
| Chain.Process | src/chain.js:45-51 | the reduce loop computes the processed record |
| Chain.ProcessKeepsTitle | src/chain.js:46 | a processed record keeps the page's title |
| Chain.FoldKeeps | src/chain.js:47-50 | processors leave the keys they do not write alone |
| Chain.Handled | src/chain.js:48 | a prop is kept exactly when it is one of the props and has a processor |
| Chain.HandledAppend | src/chain.js:48 | the kept props stay in their order: filtering distributes over concatenation |
| Chain.FoldIgnores | src/chain.js:48 | props without a processor are ignored |
| Chain.ProcessAllEach | src/chain.js:99-100 | every page is processed, one by one and in order |
| Chain.ProcessEach | src/chain.js:99-100 | the `map` over the pages computes the processed list |
| Chain.QueryChain.constructor | src/chain.js:61-66 | a new chain has `_params = {pageids: id}` and no props |
| Chain.QueryChain.Params | src/chain.js:68-71 | `params()` is `_params` with `prop` set to the props joined by `\|`; the other entries are kept |
| Chain.QueryChain.Chain | src/chain.js:107-113 | a truthy prop joins the set once, at the end; the params are merged, later values winning; the same chain is returned |
| Chain.QueryChain.Content | src/chain.js:141-145 | adds `extracts` once and sets `explaintext=1` |
| Chain.QueryChain.Summary | src/chain.js:152-157 | adds `extracts` once and sets `explaintext=1` and `exintro=1` |
| Chain.QueryChain.Image | src/chain.js:164-170 | adds `pageimages` and sets `piprop` to the truthy type keys joined by `\|` |
| Chain.QueryChain.Extlinks | src/chain.js:177-181 | adds `extlinks` and sets `ellimit=max` |
| Chain.QueryChain.Links | src/chain.js:188-193 | adds `links` and sets `plnamespace=0` and `pllimit` (100 when undefined) |
| Chain.QueryChain.Categories | src/chain.js:200-204 | adds `categories` and sets `pllimit` (100 when undefined) |
| Chain.QueryChain.Coordinates | src/chain.js:211-213 | adds `coordinates` and changes no param |
| Chain.QueryChain.Langlinks | src/chain.js:220-225 | adds `langlinks` and sets `lllimit=max` and `llprop=url` |
| Chain.QueryChain.Search | src/chain.js:128-134 | sets `list=search`, `srsearch` and `srlimit` (50 when undefined) and adds no prop |
| Chain.QueryChain.Geosearch | src/chain.js:120-126 | sets `generator=geosearch`, `ggsradius` and `ggscoord` = `lat\|lon` and adds no prop |
| Chain.QueryChain.Request | src/chain.js:88-105 | `request()` sends the query map of `params()` and resolves to the processed record(s) |
| Chain.TruthyKeys | src/chain.js:166-167 | a key is kept exactly when some type entry carries it with a truthy value |
| Chain.TruthyKeysAppend | src/chain.js:166-167 | the kept keys stay in the order of the entries: filtering distributes over concatenation |
| Chain.DefaultPiprop | src/chain.js:164-168 | the default types ask for `thumbnail\|name` |
| Chain.PropListsProps | src/chain.js:69 | the `prop` sent, split on `\|`, gives the props back in insertion order, each named once and none empty |
| Chain.RequestOnePage | src/chain.js:92-102 | a chain made for a page resolves to that page's processed record |
| Chain.RequestAllPages | src/chain.js:94-100 | a chain made without a page resolves to every returned page, processed, in order |

## Findings

| source | as written | input that shows it | evidently intended | confidence | as-written member | corrected member |
|---|---|---|---|---|---|---|
| src/coordinates.js:60 | the latitude is converted from `matches.slice(0,4)`, which stops before its direction letter (group 4), so it is never negated | `{{coord\|33\|52\|S\|151\|12\|E}}` (Sydney) gives latitude 33.8667 instead of -33.8667 | `slice(0,5)`, so that the latitude keeps its `N`/`S` letter as the longitude keeps its `E`/`W` | high, not executed | Coordinates.AsWrittenLatitudeUnsigned | Coordinates.LatitudeFollowsDirection |
| src/coordinates.js:35-41 | the deprecated path reads the directions from `latNs` and `longEw`, keys the deprecated infobox format does not use (it writes `latNS` and `longEW`) | Solok's fields as the example at src/coordinates.js:25 spells them (`latd=00`, `latm=47`, `lats=59`, `latNS=S`, …) give 0.7997 instead of -0.7997 | read `latNS` and `longEW`, the keys of that example | high, not executed | Coordinates.SolokCoordinates | Coordinates.DeprecatedLatitudeFollowsDirection |
| src/wiki-markup-parser.js:1-14 | `infoboxPattern` is a module-level regex with the `g` flag, so `exec` resumes at the `lastIndex` the previous call left at the end of its match | parsing the same wikitext twice (lines broken by '\n' only): the second call finds no infobox and returns `{}` | a fresh regex per call, or `lastIndex` reset to 0, so that the result depends on the input alone | high, not executed | MarkupParser.ParseTwice | MarkupParser.ParseFromStart |

The corrected definitions are `Coordinates.InfoboxCoords` and `Coordinates.DeprecatedCoords`,
which `Coordinates.ParseCoordinatesCorrected` uses, and `MarkupParser.ParseFromStart`. The
as-written definitions are `Coordinates.InfoboxCoordsAsWritten`,
`Coordinates.DeprecatedCoordsAsWritten`, which `Coordinates.ParseCoordinatesAsWritten` uses,
and `MarkupParser.Parse`.

## Left out

- HTTP transport is not modelled: `fetch`, `res.json()`, headers, fetch options and the API URL. Each response is an input value, and `querystring.stringify` is the query map itself, without encoding.
- Promises and the event loop are not modelled. A chain of `next()` calls is a loop over a finite list of responses.
- `JSON.parse`/`JSON.stringify` are not modelled. The response parser takes the parsed payload, with the outcomes `JSON.parse` can give (an error, null or a value). Its result is the field map, not the string passed to the callback.
- The external package `wiki-infobox-parser-core` is not part of this model. Neither are the `markupParser` wrappers around it in src/page.js and src/wiki.js. `info(key)` takes the parsed record as input.
- The thin one-line wrappers that only read one value out of a response are not modelled: `html`, `content`, `summary`, `references` in src/page.js and src/wiki.js; `random`, `geoSearch` and the other finders in src/wiki.js; `direct` in src/chain.js. The `Wiki` constructor's option merge is also left out.
- `Date` and `Date.now` become parameters: the current instant, and a function from the captured year, month and day to milliseconds. Leap years and 0-based months are whatever that function says. The function returns an integer, so a NaN birth instant (a year outside `Date`'s range) cannot be represented: where the source's `age` is NaN and `info('age')` returns undefined, the model gives a number.
- IEEE floating point is not modelled. `Number(x.toFixed(4))` is exact rounding half up of the magnitude on `real`. `Number(s)` covers unsigned and signed decimal literals, and anything else reads as NaN.
- `checkJson`'s body, the chain of json2-style regular expressions, is not modelled. The shape test is a parameter; only the guard on a missing or empty text is modelled.
- The `$` replacement patterns of `String.prototype.replace` are not modelled. The source's replacement strings contain no `$`, but text taken from a match (a link label, a template argument) is inserted as it is.
- The backtracking order of each regular expression is written out by hand, with `.` stopping at '\n', '\r', U+2028 and U+2029 as in JavaScript; there is no general regex engine.
- CoordinatePattern.Search: the engine is parametric in the number of degree digits. Only `CoordinateMatch` fixes them at two and three, to keep the solver from unrolling it.
- `Object.keys` on values that are not objects, array-like objects, and key order for integer-like keys are not modelled. Objects list their keys in the order given.
- Chain.Processor: the `processors` lookup by prop does not see `Object.prototype` names such as `toString`, which are truthy in JavaScript.
- DmsProduct, Coordinates.Sign: `directions[d] || 1` for a direction naming an `Object.prototype` property (`toString`, `constructor`, `valueOf`, `__proto__`, …) is a function or an object, so the source's product is NaN; the model gives +1 there, because NaN is not modelled.
- Page.Info: a record with an own `hasOwnProperty` field makes `metadata.hasOwnProperty(key)` throw a TypeError for every truthy key; the model reads the record's own keys directly and returns the field or undefined.
- A `QueryChain` made without an id is written with the empty id, since both are falsy. Page ids and titles are strings, because numbers are turned into property names anyway.
- Wiki.PageLookup: `_.findKey` over an array of pages is treated as finding no key. The page found is returned as its record; the `WikiPage` built from it with `_.extend(this, props)` is left out.
- Page.Info: a non-string key is not modelled. The key is None (undefined) or a string, and "" is falsy like undefined.
- Chain.QueryChain.Image: the `types` object is an ordered list of entries, so an explicit `undefined` argument cannot be written; leaving it out gives the default.
- Chain.QueryChain.Geosearch: latitude and longitude are taken as the text they print as, since number formatting is not modelled.

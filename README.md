# JavaMessageTemplate in Dafny

A model of the placeholder templating library `io.github.penguin418`. The model proves
properties of it.

A `MessageTemplate.Builder` collects literal text (`append`) and placeholders (`reserve(keyword,
default)`). It can also read a template string such as `"Hello ${name:world}!"` (`appendTemplate`).
`build()` freezes what was collected into a `MessageTemplate`. That template has two operations:

- `process(replacements)` writes each supplied keyword's value into every position reserved for it
  and joins the segments.
- `getTemplate()` writes the template back out with its `${keyword}` / `${keyword:default}` markers.

`StringTemplate` is the library's earlier copy of the builder and of `process`, without the
template reader or the serializer.

## Structure

- `Wrappers.dfy`: `Option` and `Result`.
- `JavaText.dfy`: the `java.lang.String` operations the library relies on: `String.join`, which
  writes a null element as `"null"`; `indexOf`; and `split` with one separator character, including
  its removal of trailing empty strings.
- `Layout.dfy`: the builder state (segment list, keyword → positions index, coalescing flag), the
  state invariant, `append` and `reserve` as step functions on that state, and the specification
  functions of `process` (`Render`) and `getTemplate` (`Serialized`).
- `Tokenizer.dfy`: the one fixed pattern `(?<!\\)\$\{([^}]*)}` as a hand-written leftmost
  scanner (`FindMarker`), the content parser (`ParseMarker`), and the sequence of builder calls that
  `format` makes for a template (`Scan`).
- `Format.dfy`: those calls replayed on the builder state, the round trip `appendTemplate` then
  `getTemplate`, and the shape theorem: 2m + 1 segments, with placeholders at the odd positions.
- `TemplateArrays.dfy`: the loops the two template classes share: `toArray`, the `int[]` copies of
  `build`, and the copy-and-overwrite loop of `process`. Each loop is proved against the
  specification functions.
- `MessageTemplates.dfy` and `StringTemplates.dfy`: the classes. The builder fields are updated in
  place. Each method states its new state as the step function applied to the old one.
- `Examples.dfy`, `TestText.dfy` and `FormatExamples.dfy`: the unit tests of both classes, stated as
  methods whose postconditions are the expected strings.

## Behaviour sometimes attributed to the library that the code does not implement

The model follows `MessageTemplate.java` as written:

- Escaping:
  - A marker is hidden only when the single character before `$` is a backslash. Backslash runs are
    not counted for odd/even parity.
  - The backslash stays in the output.
  - There is no `\}` escape inside a marker.
- `getTemplate` writes literal segments verbatim and never re-escapes them. Reading a template and
  writing it back still gives the same text for every template whose live markers have at most one
  colon, including templates with hidden markers: a hidden marker stays inside a literal and is
  written back byte for byte. What is lost is the other direction. A literal `${k}` added by hand
  with `append` is written back as `${k}`, and reading that text again reserves `k`
  (`Format.LiteralMarkerReparsed`).
- With a colon, the default is the second `:`-field of the whole match with its last character
  removed. With exactly one colon that is the text after the colon. With more colons the last
  character of the second field is lost: `${a:bc:d}` gives default `b`, and `${a::x}` throws
  `StringIndexOutOfBoundsException`. The model writes this as `Failure(EmptyDefaultField)`.
- There is no composition of templates and no build-once rule: a builder may be built repeatedly
  and keeps its state.

## Model

| member | source | states |
|---|---|---|
| JavaText.FirstIndexOf | src/main/java/io/github/penguin418/MessageTemplate.java:89 | the position split cuts at: the first occurrence of the separator, with none before it |
| JavaText.Fields | src/main/java/io/github/penguin418/MessageTemplate.java:89 | splitting on a separator always yields at least one field |
| JavaText.FieldsSeparatorFree | src/main/java/io/github/penguin418/MessageTemplate.java:89 | no field produced by split contains the separator |
| JavaText.FieldsHead | src/main/java/io/github/penguin418/MessageTemplate.java:89-90 | parted[0] is the text before the first colon, or the whole text when there is none |
| JavaText.FieldsJoin | src/main/java/io/github/penguin418/MessageTemplate.java:89 | joining the fields with the separator gives the original text back (split loses nothing) |
| JavaText.FieldsLastNonEmpty | src/main/java/io/github/penguin418/MessageTemplate.java:89 | a text not ending in the separator has a non-empty last field |
| JavaText.StripTrailingEmpty | src/main/java/io/github/penguin418/MessageTemplate.java:89 | split's limit-0 rule: the result is a prefix of the fields, ends in a non-empty field, and only empty fields were dropped |
| JavaText.SplitIsFields | src/main/java/io/github/penguin418/MessageTemplate.java:89 | on a marker, which ends in '}', split drops nothing and returns every field |
| JavaText.NullText | src/main/java/io/github/penguin418/MessageTemplate.java:35 | what String.join writes for one element: its text, or "null" for a null element |
| JavaText.Join | src/main/java/io/github/penguin418/MessageTemplate.java:35 | String.join("", parts): the elements' texts concatenated in order |
| JavaText.JoinSnoc | src/main/java/io/github/penguin418/MessageTemplate.java:35 | one more element adds exactly its text, or "null", at the end of the join |
| JavaText.JoinAppend | src/main/java/io/github/penguin418/MessageTemplate.java:35 | joining two lists gives the two joins concatenated |
| JavaText.Split | src/main/java/io/github/penguin418/MessageTemplate.java:89 | String.split(":"): the whole text when there is no colon; otherwise the fields with exactly the trailing empty ones dropped (a prefix of the fields that ends in a non-empty one, every dropped field empty); no piece holds the separator |
| Layout.IndexValid | src/main/java/io/github/penguin418/MessageTemplate.java:98-99 | the index invariant: every indexed position is in range, each keyword's positions strictly increase, and no position belongs to two keywords |
| Layout.Frozen | src/main/java/io/github/penguin418/MessageTemplate.java:13-14 | what a built template holds: a valid index, and a present (non-null) segment at every unindexed position |
| Layout.WellFormed | src/main/java/io/github/penguin418/MessageTemplate.java:98-100 | the builder invariant over the three fields (segments, index, lastAppended, the datatype BuilderState; the fresh builder is Empty): the frozen invariant, and when lastAppended is set it equals the last segment, which is not indexed |
| Layout.AppendStep | src/main/java/io/github/penguin418/MessageTemplate.java:108-117 | after an append the last segment grows by str and the count stays the same; otherwise exactly one literal segment str is added; the index is unchanged; the invariant is kept |
| Layout.ReserveStep | src/main/java/io/github/penguin418/MessageTemplate.java:126-131 | adds exactly one segment holding the default (possibly absent); the old size is added to the end of the keyword's list; every other keyword is unchanged; coalescing is cleared; positions stay in range, ascending and disjoint |
| Layout.KeywordAt | src/main/java/io/github/penguin418/MessageTemplate.java:45-51 | the inverse index: an indexed position maps to the keyword that owns it |
| Layout.Resolved | src/main/java/io/github/penguin418/MessageTemplate.java:29-34 | the result array of process has exactly as many slots as the template array |
| Layout.Resolve | src/main/java/io/github/penguin418/MessageTemplate.java:29-34 | the value at one position after the overwrite loop: m[k] for the supplied keyword owning it, otherwise the stored segment |
| Layout.Render | src/main/java/io/github/penguin418/MessageTemplate.java:28-36 | what process returns: the join of the resolved segments |
| Layout.ResolveOwned | src/main/java/io/github/penguin418/MessageTemplate.java:31-33 | every position of a supplied keyword receives that keyword's value |
| Layout.ResolveUnowned | src/main/java/io/github/penguin418/MessageTemplate.java:29-30 | a position that no supplied keyword owns keeps its stored segment |
| Layout.ResolveSlot | src/main/java/io/github/penguin418/MessageTemplate.java:29-34 | a placeholder position gets m[k] when k is supplied and its own default otherwise |
| Layout.LiteralKept | src/main/java/io/github/penguin418/MessageTemplate.java:29-34 | literal segments appear unchanged, and never as null, whatever the map |
| Layout.ResolveExtend | src/main/java/io/github/penguin418/MessageTemplate.java:31-33 | one more map entry changes exactly the positions of that key |
| Layout.RenderEmpty | src/main/java/io/github/penguin418/MessageTemplate.java:28-36 | process of the empty map is the join of the stored segments |
| Layout.RenderIgnoresUnknownKeys | src/main/java/io/github/penguin418/MessageTemplate.java:32 | keys absent from the index have no effect on the result |
| Layout.SerializedParts | src/main/java/io/github/penguin418/MessageTemplate.java:52-64 | getTemplate writes exactly one piece per segment |
| Layout.MarkerText | src/main/java/io/github/penguin418/MessageTemplate.java:56-59 | the marker getTemplate writes for a placeholder: "${k}" for an absent default, "${k:d}" otherwise |
| Layout.SerializedAt | src/main/java/io/github/penguin418/MessageTemplate.java:53-63 | the piece written for one position: the marker of the keyword owning it, or the literal verbatim |
| Layout.Serialized | src/main/java/io/github/penguin418/MessageTemplate.java:43-66 | what getTemplate returns: the pieces of all positions, in order |
| Layout.SerializeAppend | src/main/java/io/github/penguin418/MessageTemplate.java:52-64 | after append(str), getTemplate writes what it wrote before followed by str, whether or not the append coalesced |
| Layout.SerializeReserve | src/main/java/io/github/penguin418/MessageTemplate.java:56-59 | after reserve(k, d), getTemplate writes what it wrote before followed by ${k} or ${k:d} |
| Tokenizer.LiveAt | src/main/java/io/github/penguin418/MessageTemplate.java:84 | where a match of the pattern can start: "${", no backslash just before it, and a '}' somewhere after it |
| Tokenizer.IsMarker | src/main/java/io/github/penguin418/MessageTemplate.java:84 | the text of one match: "${", a run of non-'}' characters, then "}" |
| Tokenizer.FindMarker | src/main/java/io/github/penguin418/MessageTemplate.java:84 | find returns the leftmost live marker (no backslash before "${", a closing '}' after it), which has the shape "${" + non-'}' run + "}"; it returns none exactly when there is no live marker |
| Tokenizer.FindMarkerSkip | src/main/java/io/github/penguin418/MessageTemplate.java:158 | the search passes over positions where no live marker starts |
| Tokenizer.FindMarkerAt | src/main/java/io/github/penguin418/MessageTemplate.java:84 | a live match runs to the first '}' after its "${" and no further |
| Tokenizer.NoDollarNoMarker | src/main/java/io/github/penguin418/MessageTemplate.java:84 | text without '$' contains no marker start |
| Tokenizer.SkipDollarFree | src/main/java/io/github/penguin418/MessageTemplate.java:158 | '$'-free text is skipped by the search |
| Tokenizer.FindMarkerAfter | src/main/java/io/github/penguin418/MessageTemplate.java:84 | after '$'-free text, a marker not preceded by a backslash is the next match, start and end |
| Tokenizer.MarkerStart | src/main/java/io/github/penguin418/MessageTemplate.java:84 | the lookbehind: a marker not preceded by a backslash is live |
| Tokenizer.MarkerClose | src/main/java/io/github/penguin418/MessageTemplate.java:84 | the content [^}]* contains no '}', so '{' and '$' may occur in it |
| Tokenizer.FindMarkerNone | src/main/java/io/github/penguin418/MessageTemplate.java:158 | '$'-free text up to the end yields no further match |
| Tokenizer.MarkerFields | src/main/java/io/github/penguin418/MessageTemplate.java:89-91 | split of a marker with a colon: parted[0] minus "${" is the text before the first colon; parted[1] is the text after it up to the next colon, or to and including the closing '}' |
| Tokenizer.CloseField | src/main/java/io/github/penguin418/MessageTemplate.java:89 | the second field runs to the next colon, or takes in the closing brace |
| Tokenizer.ColonShift | src/main/java/io/github/penguin418/MessageTemplate.java:88-90 | the first colon of the match is the first colon of its content, two places later |
| Tokenizer.ColonInMarker | src/main/java/io/github/penguin418/MessageTemplate.java:88 | s.contains(":") on the match holds exactly when the content has a colon |
| Tokenizer.ParseMarker | src/main/java/io/github/penguin418/MessageTemplate.java:86-96 | no colon gives (content, absent); one colon gives (before, after); more colons give the second field minus its last character; an empty second field is the failure |
| Tokenizer.DefaultField | src/main/java/io/github/penguin418/MessageTemplate.java:91 | removing the last character of parted[1] gives the text after the colon, or the second field shortened by one |
| Tokenizer.AlternatingPrepend | src/main/java/io/github/penguin418/MessageTemplate.java:159-161 | each loop round appends one literal and then reserves one placeholder, so the calls alternate |
| Tokenizer.Scan | src/main/java/io/github/penguin418/MessageTemplate.java:155-166 | the calls of format alternate literal and placeholder, start and end with a literal, and the first literal is the text up to the first match |
| Tokenizer.ScanRound | src/main/java/io/github/penguin418/MessageTemplate.java:158-162 | one loop round, whatever the text before the match: the text up to the next match is appended; then either the parser throws and the calls stop, or the reservation is made and the loop resumes at the match end |
| Tokenizer.ScanStep | src/main/java/io/github/penguin418/MessageTemplate.java:158-162 | the success round of ScanRound when the text before the match holds no '$', the marker follows no backslash and the marker parses: that marker is the next match, and the calls are the literal, the placeholder, then the rest |
| Tokenizer.ScanRest | src/main/java/io/github/penguin418/MessageTemplate.java:164 | when no match is left, the rest of the template is appended whole, hidden markers and backslashes included, and the calls end without failure |
| Tokenizer.ScanLast | src/main/java/io/github/penguin418/MessageTemplate.java:164 | the case of ScanRest for a tail with no '$' |
| Tokenizer.ScanLength | src/main/java/io/github/penguin418/MessageTemplate.java:155-166 | m matches and no failure give 2m + 1 calls |
| Tokenizer.MarkerShape | src/main/java/io/github/penguin418/MessageTemplate.java:84 | a match is "${" + content + "}" |
| Tokenizer.ParseUnparse | src/main/java/io/github/penguin418/MessageTemplate.java:86-96 | a marker with at most one colon parses, and writing the reservation back gives the marker text exactly |
| Tokenizer.ScanUnparse | src/main/java/io/github/penguin418/MessageTemplate.java:155-166 | when no match has two colons, format does not fail and its calls, written back, give the template text exactly |
| Format.Apply | src/main/java/io/github/penguin418/MessageTemplate.java:159-161 | one scanner call applied to the builder keeps the builder invariant |
| Format.Replay | src/main/java/io/github/penguin418/MessageTemplate.java:155-166 | any sequence of scanner calls keeps the builder invariant |
| Format.ReplayAppend | src/main/java/io/github/penguin418/MessageTemplate.java:155-166 | calls made in two batches leave the builder in the same state as the same calls made in one batch |
| Format.EmptyWellFormed | src/main/java/io/github/penguin418/MessageTemplate.java:98-100 | a fresh builder satisfies the invariant |
| Format.ParseMarkerText | src/main/java/io/github/penguin418/MessageTemplate.java:86-96 | the parser reads back the keyword and default from what getTemplate writes when neither holds ':' or '}' |
| Format.SerializeApply | src/main/java/io/github/penguin418/MessageTemplate.java:52-64 | one more call adds exactly its own text to the getTemplate output |
| Format.SerializeReplay | src/main/java/io/github/penguin418/MessageTemplate.java:52-64 | getTemplate after several calls adds their texts, in order |
| Format.RoundTrip | src/main/java/io/github/penguin418/MessageTemplate.java:43-66 | appendTemplate(s) on a fresh builder then getTemplate gives s byte for byte when no marker has two colons |
| Format.LiteralMarkerReparsed | src/main/java/io/github/penguin418/MessageTemplate.java:62 | a literal "${k}" added with append is written back unescaped, and reading that text again makes a placeholder k between two empty literals |
| Format.ReplayAlternating | src/main/java/io/github/penguin418/MessageTemplate.java:155-166 | alternating calls after a reservation leave earlier positions as they were and index exactly the odd new ones |
| Format.LiteralThenReservation | src/main/java/io/github/penguin418/MessageTemplate.java:159-161 | after a reservation or on a fresh builder (coalescing off), an append followed by a reserve adds one literal position and one indexed position, and clears coalescing |
| Format.LayoutCompose | src/main/java/io/github/penguin418/MessageTemplate.java:158-163 | loop rounds compose: the layout of two rounds followed by the rest is the layout of the whole |
| Format.FreshLayout | src/main/java/io/github/penguin418/MessageTemplate.java:155-166 | on a fresh builder a template with m markers gives 2m + 1 segments, placeholders exactly at odd positions and literals (never absent) at even positions |
| Format.FreshAlternating | src/main/java/io/github/penguin418/MessageTemplate.java:126-131 | reservations from a fresh builder land exactly at odd positions; append positions are never indexed |
| TemplateArrays.ToArray | src/main/java/io/github/penguin418/MessageTemplate.java:183 | the new array holds the segment list in order |
| TemplateArrays.FreezeIndex | src/main/java/io/github/penguin418/MessageTemplate.java:174-181 | every keyword's int[] equals its position list, in order, and no keyword is added or lost |
| TemplateArrays.Process | src/main/java/io/github/penguin418/MessageTemplate.java:28-36 | the copy-and-overwrite loops return the join of the resolved segments, and the stored array is never written |
| MessageTemplates.MessageTemplate.constructor | src/main/java/io/github/penguin418/MessageTemplate.java:17-20 | stores the array and the index, which satisfy the frozen invariant |
| MessageTemplates.MessageTemplate.Process | src/main/java/io/github/penguin418/MessageTemplate.java:28-36 | returns the render of the stored segments under the map; the template is unchanged |
| MessageTemplates.MessageTemplate.GetTemplate | src/main/java/io/github/penguin418/MessageTemplate.java:43-66 | through the inverse map, returns ${k} / ${k:d} for each placeholder and each literal verbatim, in order |
| MessageTemplates.Builder.constructor | src/main/java/io/github/penguin418/MessageTemplate.java:98-100 | starts empty: no segments, no keywords, not coalescing |
| MessageTemplates.Builder.Append | src/main/java/io/github/penguin418/MessageTemplate.java:108-117 | the new state is AppendStep of the old state |
| MessageTemplates.Builder.Reserve | src/main/java/io/github/penguin418/MessageTemplate.java:126-131 | the new state is ReserveStep of the old state |
| MessageTemplates.Builder.AppendTemplate | src/main/java/io/github/penguin418/MessageTemplate.java:139-166 | the matcher loop makes exactly the scanner's calls on the builder; the result reports whether the parser threw, and the calls made before the throw remain |
| MessageTemplates.Builder.Build | src/main/java/io/github/penguin418/MessageTemplate.java:173-184 | a new template whose array equals the segment list and whose index equals the keyword lists, in order |
| StringTemplates.StringTemplate.constructor | src/main/java/io/github/penguin418/StringTemplate.java:9-12 | stores the array and the index, which satisfy the frozen invariant |
| StringTemplates.StringTemplate.Process | src/main/java/io/github/penguin418/StringTemplate.java:14-22 | returns the render of the stored segments under the map; the template is unchanged |
| StringTemplates.Builder.constructor | src/main/java/io/github/penguin418/StringTemplate.java:25-27 | starts empty: no segments, no keywords, not coalescing |
| StringTemplates.Builder.Append | src/main/java/io/github/penguin418/StringTemplate.java:29-38 | the new state is AppendStep of the old: consecutive appends coalesce |
| StringTemplates.Builder.Reserve | src/main/java/io/github/penguin418/StringTemplate.java:40-45 | the new state is ReserveStep of the old: one segment, one position, coalescing reset |
| StringTemplates.Builder.Build | src/main/java/io/github/penguin418/StringTemplate.java:47-58 | a new template whose array equals the segment list and whose int[] per keyword equals its list in order |
| Examples.ThreeCallsShape | src/main/java/io/github/penguin418/MessageTemplate.java:108-131 | append, reserve, append gives [a, d, b], with the keyword at position 1 |
| Examples.FiveCallsShape | src/test/java/io/github/penguin418/MessageTemplateTest.java:18-24 | append, reserve, append, reserve, append gives [a, d1, b, d2, c], with the keywords at 1 and 3, or [1, 3] for one repeated keyword |
| Examples.SecondReserve | src/main/java/io/github/penguin418/MessageTemplate.java:129 | a second reservation adds position 3 to its own keyword's list, after any earlier positions |
| Examples.ReserveIndex | src/main/java/io/github/penguin418/MessageTemplate.java:129 | computeIfAbsent(k).add(size - 1) as a map update |
| Examples.LoremSteps | src/test/java/io/github/penguin418/MessageTemplateTest.java:18-24 | the test's builder calls give its five segments and two-keyword index |
| Examples.FiveCallsResolved | src/main/java/io/github/penguin418/MessageTemplate.java:29-34 | after process on the five-call layout, each slot holds its value or its own default, and the literals are kept |
| Examples.TwoSlotResolved | src/main/java/io/github/penguin418/MessageTemplate.java:29-34 | the same for any frozen two-placeholder layout |
| Examples.FiveCallsRender | src/main/java/io/github/penguin418/MessageTemplate.java:28-36 | process output is a, slot 1, b, slot 2, c, where a slot is the supplied value, else its default, else "null" |
| Examples.ThreeCallsSerialized | src/main/java/io/github/penguin418/MessageTemplate.java:43-66 | getTemplate of append, reserve, append is a + marker + b |
| Examples.FiveCallsSerialized | src/main/java/io/github/penguin418/MessageTemplate.java:43-66 | getTemplate of the five calls is a + marker + b + marker + c |
| Examples.BuildLorem | src/test/java/io/github/penguin418/MessageTemplateTest.java:18-24 | the test's builder produces the expected array and index |
| Examples.ProcessTest | src/test/java/io/github/penguin418/MessageTemplateTest.java:17-28 | processTest: the defaults, then the replaced values, then the defaults again |
| Examples.GetTemplateTest | src/test/java/io/github/penguin418/MessageTemplateTest.java:31-40 | getTemplateStringTest: "Lorem ipsum ${dolor:sit} amet, ${consectetur:adipiscing} elit." |
| Examples.StringTemplateProcessTest | src/test/java/com/github/penguin418/StringTemplateTest.java:20-31 | processTest on StringTemplate: defaults, replaced values, defaults again |
| FormatExamples.TwoMarkerScan | src/main/java/io/github/penguin418/MessageTemplate.java:155-166 | for '$'-free pieces around two markers, none after a backslash, format makes exactly the five calls |
| FormatExamples.ScanTwoMarkers | src/main/java/io/github/penguin418/MessageTemplate.java:155-166 | the same, stated by positions in the template |
| FormatExamples.TwoMarkerTemplate | src/main/java/io/github/penguin418/MessageTemplate.java:155-166 | such a template leaves a fresh builder in the five-call state, with no failure |
| FormatExamples.EmptyLayout | src/test/java/io/github/penguin418/MessageTemplateTest.java:46-47 | format("") gives one empty literal, which renders to "" |
| FormatExamples.EmptyTemplateTest | src/test/java/io/github/penguin418/MessageTemplateTest.java:43-48 | "Empty template should return an empty string" |
| FormatExamples.EscapeFind | src/test/java/io/github/penguin418/MessageTemplateTest.java:83 | in the escape test only "${elit}" is live: the backslash hides the other two, and "$${" is '$' followed by a marker |
| FormatExamples.EscapeScan | src/test/java/io/github/penguin418/MessageTemplateTest.java:83 | the escape test template makes three calls: the text with its backslashes, reserve elit, "." |
| FormatExamples.EscapeLayout | src/test/java/io/github/penguin418/MessageTemplateTest.java:83 | those calls give three segments, with elit at position 1 |
| FormatExamples.EscapeRender | src/test/java/io/github/penguin418/MessageTemplateTest.java:84 | process with elit = 100 writes the escaped text verbatim, then 100, then "." |
| FormatExamples.EscapeTest | src/test/java/io/github/penguin418/MessageTemplateTest.java:80-85 | "Escaped special character should be ignored" |
| FormatExamples.TwoKeywordsLayout | src/test/java/io/github/penguin418/MessageTemplateTest.java:54 | the template gives the five-call layout with ipsum and amet, neither with a default |
| FormatExamples.TwoKeywordsTest | src/test/java/io/github/penguin418/MessageTemplateTest.java:51-56 | "Lorem IPSUM sit AMET, adipiscing elit." |
| FormatExamples.UnmatchedBracesLayout | src/test/java/io/github/penguin418/MessageTemplateTest.java:61 | stray '{' and '}' outside markers stay in the literals |
| FormatExamples.UnmatchedBracesTest | src/test/java/io/github/penguin418/MessageTemplateTest.java:58-63 | "Lorem {IPSUM sit AMET}, adipiscing elit." |
| FormatExamples.NestedBraceLayout | src/test/java/io/github/penguin418/MessageTemplateTest.java:68 | "{${ipsum}}" is '{', a marker, '}'; ipsum is reserved twice |
| FormatExamples.NestedBraceTest | src/test/java/io/github/penguin418/MessageTemplateTest.java:65-70 | "Lorem {IPSUM} sit IPSUM, adipiscing elit." |
| FormatExamples.BraceLayout | src/test/java/io/github/penguin418/MessageTemplateTest.java:76 | "${{ipsum}" reserves the keyword "{ipsum" |
| FormatExamples.BraceTest | src/test/java/io/github/penguin418/MessageTemplateTest.java:73-78 | "Lorem IPSUM sit null, adipiscing elit.": the unset, default-less amet renders as null |
| FormatExamples.DefaultValueLayout | src/test/java/io/github/penguin418/MessageTemplateTest.java:90 | "${k:d}" reserves k with default d |
| FormatExamples.DefaultValueTest | src/test/java/io/github/penguin418/MessageTemplateTest.java:87-92 | "Lorem DEFAULT1 sit DEFAULT2, adipiscing elit." |
| FormatExamples.DuplicateLayout | src/test/java/io/github/penguin418/MessageTemplateTest.java:97 | one keyword reserved twice, at positions 1 and 3, each with its own default |
| FormatExamples.DuplicateKeywordTest | src/test/java/io/github/penguin418/MessageTemplateTest.java:94-100 | unreplaced occurrences keep their own defaults; a replacement reaches both |

## Left out

- The performance tests (src/test/java/io/github/penguin418/MessageTemplateTest.java:104-396 and
  src/test/java/com/github/penguin418/StringTemplateTest.java:35-102) are not modelled. They measure
  wall-clock time, use `Random` and `System.gc`, and print.
- The general `java.util.regex` engine is not modelled. Only the one fixed pattern of line 84 is
  modelled, as a hand-written scanner.
- `HashMap` iteration order is not modelled. `process` and `getTemplate` visit keywords in an order
  the model chooses with `:|`. The index positions are disjoint, so the result does not depend on
  that order, and the postconditions say so.
- `MessageTemplates.Builder.AppendTemplate`: the `StringIndexOutOfBoundsException` thrown for
  `${a::x}` is modelled as a `false` result. The calls made before the throw are kept, as they are
  in Java. The builder methods return nothing, so method chaining is not modelled.
- The deprecated `format(String)` (MessageTemplate.java:151-153) does the same as `appendTemplate`
  and is modelled once, as `AppendTemplate`.
- `TemplateArrays.FreezeIndex`: positions are unbounded naturals. The 32-bit range of `int[]` is
  not modelled, because no template reaches 2^31 segments.
- Strings are sequences of characters. UTF-16 surrogates are not modelled.
- A null literal passed to `append` is not modelled. Absent values occur only as placeholder defaults
  (`Option<string>`).
- Thread-safety is not modelled.
- The expected strings of the unit tests are written as concatenations of their literal pieces and
  markers, not as single string literals.

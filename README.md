# hydra-tutor, modelled in Dafny

hydra-tutor is a small web service for learning Hydra. It has two tutors.

- The **filter tutor** decodes a filter from the user's configuration text. The filter is a value filter, a bundle filter or a closeable bundle filter. The tutor runs the filter over each line of the user's input and shows what comes out.
- The **tree tutor** reads CSV records, feeds them to a tree builder and shows the resulting tree. The view can be the whole tree at once (`build`), one node at a time (`step`) or a record at a time (the session's `step` and `back`).

This project models the logic of both tutors:

- the per-user session state of each tutor, with its caching and its error handling;
- the lossless tokenizer;
- the literal parser and output formatter of the older filter tutor;
- the JSON bundle field and format classes;
- the CSV-driven bundle readers of both tree tutors;
- the tree view and its `build`, `step`, `toString` and `find` operations.

The model is built from specification functions on values, such as `TokenizerSpec.Scan`, `Values.Parse`, `TutorTrees.StepView` and `TreeSessions.Step`. Each class that updates its fields in place is a Dafny class whose methods are proved equal to those functions. Lemmas state what the functions promise:

- round trips (a canonical value formats and parses back to itself; quoted fields tokenize back to themselves);
- invariants (a tree view only grows; session offsets stay valid; the field registry stays well formed);
- the error paths of each operation.

Foreign behaviour is a parameter. This covers the JSON library, the Hydra codec and plugin registries, `Double` parsing and printing, `ValueFactory.decodeValue`, the tree builder and the data store. It enters as a function-valued field of `Values.Runtime`, `HydraSessions.Plugins` or `FilterSessions.Plugins`, as a `TreeSessions.Builder`, or as a `TutorTrees.StoreNode` tree.

In several places the code's behaviour is surprising. The model follows the code:

- The tokenizer keeps group delimiters in its tokens: `a,"b,c"` gives `a` and `"b,c"`.
- `TutorTree.step` resets `inserted` on each recursive call, so one step can add an entry at more than one level (`TutorTreeLemmas.StepMayInsertTwice`). The folder flag of an existing entry is never updated.
- The literal `[]` makes `parseValue` dereference a null token list, which is a `NullPointer` error.
- `back` does nothing once `getTree` has built a tree, because `built` stays true.

## Model

| member | source | states |
|---|---|---|
| BundleFields.GetIndex | src/main/java/com/addthis/tutor/bundle/JSONBundleField.java:31-34 | a field has no index |
| BundleFields.Equals | src/main/java/com/addthis/tutor/bundle/JSONBundleField.java:36-46 | a field equals exactly the fields with the same (possibly null) name, and never null or another class |
| BundleFields.HashCode | src/main/java/com/addthis/tutor/bundle/JSONBundleField.java:48-51 | the hash is a 32-bit int, 0 for a null name |
| JavaStrings.StringHash | src/main/java/com/addthis/tutor/bundle/JSONBundleField.java:49-51 | `String.hashCode` is a signed 32-bit int: the `31 * h + c` accumulator over the UTF-16 code units, with wrap-around (`SurrogateHash`, `AsciiHash`) |
| JavaStrings.CodeUnits | src/main/java/com/addthis/tutor/bundle/JSONBundleField.java:49-51 | a character is one code unit below U+10000, otherwise a high and a low surrogate that encode it |
| JavaStrings.Utf16 | src/main/java/com/addthis/tutor/bundle/JSONBundleField.java:49-51 | a string has between one and two code units per character, each in 16 bits |
| JavaStrings.HashAccumulator | src/main/java/com/addthis/tutor/bundle/JSONBundleField.java:49-51 | the hash loop's state stays an unsigned 32-bit value |
| JavaStrings.Utf16Bmp | src/main/java/com/addthis/tutor/bundle/JSONBundleField.java:49-51 | a string without supplementary characters is its own code units |
| JavaStrings.Utf16Append | src/main/java/com/addthis/tutor/bundle/JSONBundleField.java:49-51 | the code units of a concatenation are those of the parts |
| JavaStrings.HashAccumulatorStep | src/main/java/com/addthis/tutor/bundle/JSONBundleField.java:49-51 | each code unit updates the hash as `(31 * h + c) mod 2^32` |
| JavaStrings.SurrogateUnits | src/main/java/com/addthis/tutor/bundle/JSONBundleField.java:49-51 | U+1F600 is the surrogate pair 0xD83D 0xDE00 |
| JavaStrings.SurrogateHash | src/main/java/com/addthis/tutor/bundle/JSONBundleField.java:49-51 | U+1F600 hashes to 1772899, as its two surrogates |
| JavaStrings.AsciiHash | src/main/java/com/addthis/tutor/bundle/JSONBundleField.java:49-51 | "ab" hashes to `31 * 97 + 98` |
| BundleFields.EqualsReflexive | src/main/java/com/addthis/tutor/bundle/JSONBundleField.java:36-46 | equals is reflexive |
| BundleFields.EqualsSymmetric | src/main/java/com/addthis/tutor/bundle/JSONBundleField.java:36-46 | equals is symmetric |
| BundleFields.EqualsTransitive | src/main/java/com/addthis/tutor/bundle/JSONBundleField.java:36-46 | equals is transitive |
| BundleFields.EqualsRejectsOthers | src/main/java/com/addthis/tutor/bundle/JSONBundleField.java:38-39 | a field never equals null or an object of another class |
| BundleFields.HashConsistent | src/main/java/com/addthis/tutor/bundle/JSONBundleField.java:36-51 | equal fields have equal hashes |
| BundleFields.HashOfName | src/main/java/com/addthis/tutor/bundle/JSONBundleField.java:49-51 | a named field's hash is its name's String hash |
| BundleFormat.Request | src/main/java/com/addthis/tutor/bundle/JSONBundleFormat.java:29-38 | getField(name) registers the name once and never changes an existing entry |
| BundleFormat.FirstOccurrences | src/main/java/com/addthis/tutor/bundle/JSONBundleFormat.java:29-38 | the distinct names of a request sequence, in the order they were first requested |
| BundleFormat.RequestKeeps | src/main/java/com/addthis/tutor/bundle/JSONBundleFormat.java:29-38 | getField keeps the map and list well formed and in step; each grows by one exactly when the name is new |
| BundleFormat.RequestIdempotent | src/main/java/com/addthis/tutor/bundle/JSONBundleFormat.java:29-38 | requesting the same name twice is the same as once |
| BundleFormat.RequestAllOrder | src/main/java/com/addthis/tutor/bundle/JSONBundleFormat.java:29-38 | after any requests, the field list holds each requested name once, in first-request order, and the map holds exactly those names |
| BundleFormat.CountIsDistinctNames | src/main/java/com/addthis/tutor/bundle/JSONBundleFormat.java:50-53 | the field count is the number of distinct names requested |
| BundleFormat.RemoveDesyncs | src/main/java/com/addthis/tutor/bundle/JSONBundleFormat.java:75-78 | removing through the iterator drops the field from the list only; the map still has it, so getField does not re-add it and the count no longer matches the list |
| BundleFormat.RemoveKeepsWellFormed | src/main/java/com/addthis/tutor/bundle/JSONBundleFormat.java:75-78 | removal from the list keeps the registry well formed |
| BundleFormat.JSONBundleFormat.constructor | src/main/java/com/addthis/tutor/bundle/JSONBundleFormat.java:26-27 | a new format has no fields |
| BundleFormat.JSONBundleFormat.GetField | src/main/java/com/addthis/tutor/bundle/JSONBundleFormat.java:29-38 | returns the field of that name; the new registry is `Request` of the old; the list's modification count rises when a field is added |
| BundleFormat.JSONBundleFormat.HasField | src/main/java/com/addthis/tutor/bundle/JSONBundleFormat.java:40-43 | true exactly when the name has been registered |
| BundleFormat.JSONBundleFormat.FieldAt | src/main/java/com/addthis/tutor/bundle/JSONBundleFormat.java:45-48 | the field at a position, or IndexOutOfBounds outside the list |
| BundleFormat.JSONBundleFormat.GetFieldCount | src/main/java/com/addthis/tutor/bundle/JSONBundleFormat.java:50-53 | the size of the map, which is the list's length while the two are in step |
| BundleFormat.JSONBundleFormat.Iterator | src/main/java/com/addthis/tutor/bundle/JSONBundleFormat.java:60-63 | a fresh iterator at the start of the field list |
| BundleFormat.FieldIterator.constructor | src/main/java/com/addthis/tutor/bundle/JSONBundleFormat.java:62-63 | the iterator starts before the first field, expecting the list's current modification count |
| BundleFormat.JSONBundleFormat.CreateBundle | src/main/java/com/addthis/tutor/bundle/JSONBundleFormat.java:83-86 | always throws UnsupportedOperationException |
| BundleFormat.FieldIterator.HasNext | src/main/java/com/addthis/tutor/bundle/JSONBundleFormat.java:65-68 | true while the cursor has not reached the end of the list |
| BundleFormat.FieldIterator.Next | src/main/java/com/addthis/tutor/bundle/JSONBundleFormat.java:70-73 | the next field and the cursor advanced; ConcurrentModification after a change to the list; NoSuchElement at the end |
| BundleFormat.FieldIterator.Remove | src/main/java/com/addthis/tutor/bundle/JSONBundleFormat.java:75-78 | removes the last field returned from the list only; IllegalState with no last field; ConcurrentModification after a change to the list |
| TokenizerSpec.Alphabets | src/main/java/com/addthis/hydratutor/LosslessTokenizer.java:70-86 | the alphabets exist exactly when each group string has length 1 or 2; then group k opens with its first character and closes with its last; otherwise the error is "invalid match " and the first bad group string |
| TokenizerSpec.AlphabetsFailurePersists | src/main/java/com/addthis/hydratutor/LosslessTokenizer.java:73-83 | the first invalid group decides the error |
| TokenizerSpec.Configure | src/main/java/com/addthis/hydratutor/LosslessTokenizer.java:66-90 | a null separator throws "separator not set"; the settings keep the separator, escape and packing flag; without groups the alphabets are empty, with groups configuration succeeds or fails exactly as `Alphabets`, with its alphabets or its error |
| Tokenizer.LosslessTokenizer.constructor | src/main/java/com/addthis/hydratutor/LosslessTokenizer.java:25-41 | the default tokenizer splits on "," with no groups, no packing and no initialization yet |
| Tokenizer.LosslessTokenizer.Create | src/main/java/com/addthis/hydratutor/LosslessTokenizer.java:43-48 | the three-argument constructor initializes at once, failing exactly as `Configure` does |
| Tokenizer.LosslessTokenizer.Initialize | src/main/java/com/addthis/hydratutor/LosslessTokenizer.java:66-90 | builds the alphabets from the groups, or throws and leaves the fields unchanged |
| Tokenizer.LosslessTokenizer.Tokenize | src/main/java/com/addthis/hydratutor/LosslessTokenizer.java:131-206 | initializes lazily; null for a null or blank line, otherwise the tokens `Scan` gives; maxColCount becomes the largest token count seen |
| Tokenizer.ScanLine | src/main/java/com/addthis/hydratutor/LosslessTokenizer.java:146-201 | the character loop returns exactly `Scan(cfg, line)` |
| TokenizerSpec.Scan | src/main/java/com/addthis/hydratutor/LosslessTokenizer.java:146-201 | without packing a line always yields at least one token; `TokenizerLemmas.QuotedFieldsRoundTrip` and `TokensWithinLine` state what the tokens are |
| TokenizerSpec.Tokenize | src/main/java/com/addthis/hydratutor/LosslessTokenizer.java:131-145 | null exactly for a null or blank line; otherwise the scanned tokens, at least one when unpacked |
| Tokenizer.Max | src/main/java/com/addthis/hydratutor/LosslessTokenizer.java:203 | the larger of two counts |
| TokenizerLemmas.RunAppend | src/main/java/com/addthis/hydratutor/LosslessTokenizer.java:154-201 | scanning a concatenation is scanning one part, then the other |
| TokenizerLemmas.EscapedPair | src/main/java/com/addthis/hydratutor/LosslessTokenizer.java:169-178 | an escape character adds the next character literally, separator or not |
| TokenizerLemmas.PlainRun | src/main/java/com/addthis/hydratutor/LosslessTokenizer.java:196-200 | ordinary characters extend the current token |
| TokenizerLemmas.InGroupRun | src/main/java/com/addthis/hydratutor/LosslessTokenizer.java:180-185 | inside a group every character but the closer and the escape is kept, separators included |
| TokenizerLemmas.OpenStep | src/main/java/com/addthis/hydratutor/LosslessTokenizer.java:186-194 | a group opener starts the matching group and is kept |
| TokenizerLemmas.CloseStep | src/main/java/com/addthis/hydratutor/LosslessTokenizer.java:180-185 | the group's closer ends the group and is kept |
| TokenizerLemmas.GroupRun | src/main/java/com/addthis/hydratutor/LosslessTokenizer.java:180-195 | a whole group, delimiters included, lands in one token |
| TokenizerLemmas.SeparatorStep | src/main/java/com/addthis/hydratutor/LosslessTokenizer.java:156-163 | without packing, a separator starts a new, empty token |
| TokenizerLemmas.Segments | src/main/java/com/addthis/hydratutor/LosslessTokenizer.java:154-201 | the reference split of a line at separator characters |
| TokenizerLemmas.SegmentsCount | src/main/java/com/addthis/hydratutor/LosslessTokenizer.java:154-201 | the reference split has one more piece than the line has separators |
| TokenizerLemmas.SegmentsJoin | src/main/java/com/addthis/hydratutor/LosslessTokenizer.java:154-201 | joining the reference split with the separator restores the line |
| TokenizerLemmas.PlainLineSplits | src/main/java/com/addthis/hydratutor/LosslessTokenizer.java:154-201 | without packing, a line without group or escape characters tokenizes to its reference split, trailing empty token included |
| TokenizerLemmas.FieldsRoundTrip | src/main/java/com/addthis/hydratutor/LosslessTokenizer.java:154-201 | fields built from text, escapes and groups, joined by a separator, tokenize back to their contents |
| TokenizerLemmas.QuotePieces | src/main/java/com/addthis/hydratutor/LosslessTokenizer.java:169-178 | escaping every special character of a field encodes it so that scanning yields it unchanged |
| TokenizerLemmas.QuotedFieldsRoundTrip | src/main/java/com/addthis/hydratutor/LosslessTokenizer.java:154-201 | any fields, escaped and joined by a separator, tokenize back to exactly those fields (the lossless property) |
| TokenizerLemmas.PackedTokensNonEmpty | src/main/java/com/addthis/hydratutor/LosslessTokenizer.java:157 | with packing, no token is empty |
| TokenizerLemmas.TokensWithinLine | src/main/java/com/addthis/hydratutor/LosslessTokenizer.java:154-201 | no token is longer than the line |
| Values.ArraySettingsConfigured | src/main/java/com/addthis/hydratutor/HydraTutorState.java:109-111 | the array tokenizer splits on "," with groups `{}`, `[]` and `"` |
| Values.Interior | src/main/java/com/addthis/hydratutor/HydraTutorState.java:97 | the literal without its first and last characters |
| Values.ParseElements | src/main/java/com/addthis/hydratutor/HydraTutorState.java:117-119 | one element per token when every token parses |
| Values.DecodeValue | src/main/java/com/addthis/tutor/bundle/JSONBundles.java:60-65 | null for null, otherwise the library decoder's result |
| Values.ParseLiteral | src/main/java/com/addthis/hydratutor/HydraTutorState.java:83-140 | parseValue returns exactly `ParseValue` |
| Values.ParseText | src/main/java/com/addthis/hydratutor/HydraTutorState.java:88 | a non-null literal is trimmed, then classified |
| Values.Classify | src/main/java/com/addthis/hydratutor/HydraTutorState.java:90-124 | the classification of the trimmed literal equals `ParseTrimmed` |
| Values.ParseTrimmed | src/main/java/com/addthis/hydratutor/HydraTutorState.java:90-139 | the kind of a parsed value follows the literal: null only for `null`/`(null)`, a string only for a blank or quoted literal, an object only inside braces, an array only inside brackets, a double only with a '.' or for NaN, a long only when `Long.parseLong` reads that number |
| Values.ParseValue | src/main/java/com/addthis/hydratutor/HydraTutorState.java:83-140 | the value is null exactly for a null input or the trimmed literal `null` or `(null)`; a blank input is the empty string |
| Values.Parse | src/main/java/com/addthis/hydratutor/HydraTutorState.java:88-140 | a non-null literal is trimmed first: blank is the empty string, null exactly for `null`/`(null)`, strings from quotes, arrays from brackets (`ValueLemmas.QuotedIsString`, `ValueLemmas.ArrayOfTokens`) |
| Values.ParseArrayText | src/main/java/com/addthis/hydratutor/HydraTutorState.java:108-121 | a blank interior throws NullPointerException; an array has one element per token (`ValueLemmas.ElementsMeaning`, `ValueLemmas.ArrayOfTokens`) |
| Values.ParseNumber | src/main/java/com/addthis/hydratutor/HydraTutorState.java:125-139 | a double exactly when the text holds '.' or is NaN, else a long equal to `ParseLong`; a long literal parses exactly when `ParseLong` accepts it; every failure is "Cannot parse" for that text |
| Values.ParseArray | src/main/java/com/addthis/hydratutor/HydraTutorState.java:108-121 | the tokenizer and the element loop return exactly `ParseArrayText` |
| Values.ElementsNext | src/main/java/com/addthis/hydratutor/HydraTutorState.java:117-119 | each loop iteration appends the next parsed token, or the first failure ends the parse |
| Values.ElementsFailurePersists | src/main/java/com/addthis/hydratutor/HydraTutorState.java:117-119 | once an element fails, the array fails with that error |
| Values.FormatAll | src/main/java/com/addthis/hydratutor/HydraTutorState.java:151-156 | the output of each array element |
| Values.FormatOutput | src/main/java/com/addthis/hydratutor/HydraTutorState.java:142-162 | formatOutput returns exactly `Format` |
| Values.Format | src/main/java/com/addthis/hydratutor/HydraTutorState.java:142-162 | null prints as a literal parseValue reads back as null; strings print quoted and arrays bracketed, the shapes parseValue recognises (`ValueLemmas.FormatThenParse` gives the full round trip) |
| Values.FormatArray | src/main/java/com/addthis/hydratutor/HydraTutorState.java:147-158 | the builder loop yields "[", the elements joined by " , ", and "]" |
| Values.ArrayLoopStep | src/main/java/com/addthis/hydratutor/HydraTutorState.java:151-156 | one iteration of the builder loop keeps its invariant |
| ValueLemmas.BlankIsEmptyString | src/main/java/com/addthis/hydratutor/HydraTutorState.java:88-91 | a blank literal is the empty string |
| ValueLemmas.NullLiterals | src/main/java/com/addthis/hydratutor/HydraTutorState.java:92-94 | "null" and "(null)", padded or not, are null |
| ValueLemmas.QuotedIsString | src/main/java/com/addthis/hydratutor/HydraTutorState.java:95-97 | a quoted literal is the string between the quotes, taken verbatim |
| ValueLemmas.ElementsSucceed | src/main/java/com/addthis/hydratutor/HydraTutorState.java:117-119 | the elements parse exactly when every token parses |
| ValueLemmas.ElementsMeaning | src/main/java/com/addthis/hydratutor/HydraTutorState.java:117-119 | element k is token k parsed |
| ValueLemmas.ArrayOfTokens | src/main/java/com/addthis/hydratutor/HydraTutorState.java:108-121 | a non-blank array literal parses exactly when each of its tokens does, to an array of as many elements, each its token parsed |
| ValueLemmas.BlankArrayIsError | src/main/java/com/addthis/hydratutor/HydraTutorState.java:113-115 | an array literal with a blank interior gets no token list and fails with a null dereference |
| ValueLemmas.EmptyArrayIsError | src/main/java/com/addthis/hydratutor/HydraTutorState.java:108-115 | "[]" and "[ ]" fail with a null dereference |
| ValueLemmas.OtherLiteralIsLong | src/main/java/com/addthis/hydratutor/HydraTutorState.java:132-138 | any other literal without '.' is a long exactly when it parses as a 64-bit long, else the "Cannot parse" error |
| ValueLemmas.OtherLiteralIsDouble | src/main/java/com/addthis/hydratutor/HydraTutorState.java:125-131 | any other literal with '.', or NaN, is a double exactly when Double parses it, else the "Cannot parse" error |
| ValueLemmas.UnquotedWordIsError | src/main/java/com/addthis/hydratutor/HydraTutorState.java:132-138 | an unquoted word is rejected with the message that names it |
| ValueLemmas.FormatThenParse | src/main/java/com/addthis/hydratutor/HydraTutorState.java:83-162 | formatting a canonical value and parsing the text gives the value back |
| ValueLemmas.RoundTrip | src/main/java/com/addthis/hydratutor/HydraTutorState.java:83-162 | parseValue(formatOutput(v)) == v for every value without doubles, maps, unescaped quotes or empty arrays, nested at most two deep |
| ValueLemmas.RoundTripExample | src/main/java/com/addthis/hydratutor/HydraTutorState.java:83-162 | `[1 , "a,b" , [(null) , -2]]` round-trips |
| ValueLemmas.LongThenParse | src/main/java/com/addthis/hydratutor/HydraTutorState.java:133-135 | a 64-bit long's output parses back to it |
| ValueLemmas.InteriorTokens | src/main/java/com/addthis/hydratutor/HydraTutorState.java:108-121 | the interior of a formatted array tokenizes to one token per element, each the element's output once trimmed |
| ValueLemmas.BundleCases | src/main/java/com/addthis/tutor/bundle/JSONBundles.java:38-58 | parseBundle: null for null; an empty object exactly for blank input; the "not in bundle format" error for anything not in braces; otherwise the JSON decoder's result |
| Values.ParseBundle | src/main/java/com/addthis/tutor/bundle/JSONBundles.java:38-58 | null exactly for null input; an error only for a non-blank input; a decoded object only for a brace-wrapped text, and it is the decoder's object |
| ValueLemmas.NotBundleNamesInput | src/main/java/com/addthis/tutor/bundle/JSONBundles.java:48-52 | the bundle-format error quotes the trimmed input |
| ValueLemmas.CannotParseNamesInput | src/main/java/com/addthis/tutor/bundle/JSONBundles.java:30-36 | the "Cannot parse" error quotes the literal |
| JavaStrings.LongRoundTrip | src/main/java/com/addthis/hydratutor/HydraTutorState.java:133-135 | Long.parseLong reads back the decimal text of every 64-bit long |
| JavaStrings.ParseLong | src/main/java/com/addthis/hydratutor/HydraTutorState.java:134 | a parsed number always lies in the signed 64-bit range; `LongRoundTrip` shows it reads back the decimal text of every long |
| JavaStrings.Trim | src/main/java/com/addthis/hydratutor/HydraTutorState.java:88 | String.trim: drops leading and trailing characters up to the space; empty exactly for a blank string |
| JavaStrings.TrimIdempotent | src/main/java/com/addthis/hydratutor/HydraTutorState.java:88 | trimming twice is trimming once |
| JavaStrings.LastIndexOf | src/main/java/com/addthis/tutor/tree/TreeTutorState.java:165 | String.lastIndexOf: the last position of the character, -1 exactly when it is absent |
| TreeRows.Propagate | src/main/java/com/addthis/tutor/tree/TreeInput.java:93-95 | runtime exceptions pass unchanged; a checked exception becomes a RuntimeException whose message is the cause's `toString` |
| TreeRows.CheckedText | src/main/java/com/addthis/tutor/tree/TreeInput.java:93-94 | a checked exception's `toString`: its class name, ": ", then its message |
| TreeRows.PropagateNamesCause | src/main/java/com/addthis/tutor/tree/TreeInput.java:93-94 | a wrapped IOException's message is `java.io.IOException: ` plus the cause's message, not the bare message |
| TreeRows.BindNext | src/main/java/com/addthis/tutor/tree/TreeInput.java:87-90 | each loop iteration sets the next field to its cell's decoded value, or the first decoding error ends the record |
| TreeRows.BindSucceeds | src/main/java/com/addthis/tutor/tree/TreeInput.java:86-91 | a record binds exactly when each of its first |keys| cells decodes |
| TreeRows.BindDomain | src/main/java/com/addthis/tutor/tree/TreeInput.java:86-91 | the bundle has exactly the header's fields |
| TreeRows.BindValues | src/main/java/com/addthis/tutor/tree/TreeInput.java:86-91 | each field holds the value of its column, the last column winning for a repeated header |
| TreeRows.BindMeaning | src/main/java/com/addthis/tutor/tree/TreeInput.java:86-91 | when binding succeeds, its fields and values, both directions |
| TreeRows.BindIgnoresExtra | src/main/java/com/addthis/tutor/tree/TreeInput.java:81-91 | cells beyond the header are ignored |
| TreeRows.ShortRowStartsWithNumber | src/main/java/com/addthis/tutor/tree/TreeInput.java:81-85 | the short-row message starts with "row at " and the row number |
| TreeRows.TreeInput.Init | src/main/java/com/addthis/tutor/tree/TreeInput.java:59-73 | the reader holds the format, the header and the records, at the first record |
| TreeRows.TreeInput.Create | src/main/java/com/addthis/tutor/tree/TreeInput.java:59-73 | a format that already has fields is an IllegalArgument; no header is "header row is missing"; otherwise the header and the records are the input's |
| TreeRows.TreeInput.ComputeNext | src/main/java/com/addthis/tutor/tree/TreeInput.java:75-96 | the next record as `NextRecord`: end of data, the short-row error, or the bound bundle; the header names are registered with the format |
| TreeRows.NextRecord | src/main/java/com/addthis/tutor/tree/TreeInput.java:75-96 | end of data exactly past the last record; a short row is an IllegalArgument; any other failure is a runtime exception |
| TreeRows.Bind | src/main/java/com/addthis/tutor/tree/TreeInput.java:86-91 | a failing cell always surfaces as a runtime exception (checked ones wrapped); the bundle binds at most one field per header cell |
| TreeRows.TreeInput.BindRow | src/main/java/com/addthis/tutor/tree/TreeInput.java:86-91 | the field loop returns exactly `Bind` and registers the header with the format |
| TreeTutorInput.KVBundle.SetValue | src/main/java/com/addthis/treetutor/TreeBundle.java:55-57 | the bundle maps the key to the value, all else unchanged |
| TreeTutorInput.TrimKeys | src/main/java/com/addthis/treetutor/TreeInput.java:65-67 | each header cell trimmed; a null cell makes it fail |
| TreeTutorInput.CellValue | src/main/java/com/addthis/treetutor/TreeBundle.java:47-57 | a cell's value is its trimmed text as a string; null has none |
| TreeTutorInput.RecordValues | src/main/java/com/addthis/treetutor/TreeBundle.java:47-57 | the value of each cell of a record |
| TreeTutorInput.FillNext | src/main/java/com/addthis/treetutor/TutorTree.java:83-90 | each key-loop iteration sets the next key, or throws NoSuchElement past the row's end, or a null dereference for a null cell |
| TreeTutorInput.FillFailurePersists | src/main/java/com/addthis/treetutor/TutorTree.java:83-90 | the first failure ends the loop |
| TreeTutorInput.FillSucceeds | src/main/java/com/addthis/treetutor/TutorTree.java:83-90 | the keys bind exactly when the row is long enough and has no null among them |
| TreeTutorInput.FillErrors | src/main/java/com/addthis/treetutor/TutorTree.java:83-90 | NoSuchElement exactly when the row runs out before any null cell; no other errors |
| TreeTutorInput.FillDomain | src/main/java/com/addthis/treetutor/TutorTree.java:83-90 | the bundle has exactly the keys bound so far |
| TreeTutorInput.FillValues | src/main/java/com/addthis/treetutor/TutorTree.java:83-90 | each key holds its column's value, the last column winning for a repeated key |
| TreeTutorInput.FillMeaning | src/main/java/com/addthis/treetutor/TutorTree.java:83-90 | the whole record: when it succeeds, which error it raises, and the bundle it builds |
| TreeTutorInput.Fill | src/main/java/com/addthis/treetutor/TutorTree.java:83-90 | the key loop fails only with NoSuchElement or NullPointer; a success consumed no more cells than the row has and binds at most one value per key |
| TreeTutorInput.KVBundle.constructor | src/main/java/com/addthis/treetutor/TreeBundle.java:34 | a new bundle is empty |
| TreeTutorInput.TreeInput.Create | src/main/java/com/addthis/treetutor/TreeInput.java:45-68 | no header is IllegalState "header row is missing"; a null header cell is a null dereference; otherwise the trimmed keys and every remaining record |
| TreeTutorInput.TreeInput.Init | src/main/java/com/addthis/treetutor/TreeInput.java:62-63 | the input holds the keys and records, at the first record |
| TreeTutorInput.TreeInput.HasNextBundle | src/main/java/com/addthis/treetutor/TreeInput.java:75-77 | true while records remain |
| TreeTutorInput.TreeInput.GetNextBundle | src/main/java/com/addthis/treetutor/TreeInput.java:84-86 | a fresh bundle over the next record and the cursor advanced, or NoSuchElement at the end |
| TreeTutorInput.TreeInput.GetKey | src/main/java/com/addthis/treetutor/TreeInput.java:92-94 | the key at an index, or IndexOutOfBounds |
| TreeTutorInput.TreeInput.NumKeys | src/main/java/com/addthis/treetutor/TreeInput.java:99-101 | the number of keys |
| TreeTutorInput.TreeBundle.constructor | src/main/java/com/addthis/treetutor/TreeBundle.java:33-38 | an empty bundle over the record, at its first value |
| TreeTutorInput.TreeBundle.HasNext | src/main/java/com/addthis/treetutor/TreeBundle.java:40-42 | true while values remain |
| TreeTutorInput.TreeBundle.GetNextValue | src/main/java/com/addthis/treetutor/TreeBundle.java:47-49 | the next value trimmed; NoSuchElement at the end; a null dereference for a null cell |
| TreeTutorInput.TreeBundle.SetValue | src/main/java/com/addthis/treetutor/TreeBundle.java:55-57 | the key gets the next value as a string, or the errors of GetNextValue with the bundle unchanged |
| TreeTutorInput.TreeBundle.ToListBundle | src/main/java/com/addthis/treetutor/TreeBundle.java:64-66 | the bundle itself |
| TutorTrees.Title | src/main/java/com/addthis/treetutor/TutorTree.java:151-155 | a node's title is its name, with "*" appended exactly when it has data |
| TutorTrees.BuildView | src/main/java/com/addthis/treetutor/TutorTree.java:143-173 | one view entry per child |
| TutorTrees.StepView | src/main/java/com/addthis/treetutor/TutorTree.java:188-248 | step consumes at least one child of a non-empty level and never moves past its last child |
| TutorTrees.WhileFrom | src/main/java/com/addthis/treetutor/TutorTree.java:194-246 | the outer loop never moves the child iterator back |
| TutorTrees.Iter | src/main/java/com/addthis/treetutor/TutorTree.java:195-245 | each outer-loop iteration consumes at least one child |
| TutorTrees.ForStep | src/main/java/com/addthis/treetutor/TutorTree.java:200-209 | one inner-loop iteration keeps the array's length and the iterator in range |
| TutorTrees.ForFrom | src/main/java/com/addthis/treetutor/TutorTree.java:199-213 | the inner loop keeps the array's length and the iterator in range |
| TutorTrees.Segments | src/main/java/com/addthis/treetutor/TutorTree.java:330-337 | find splits its path into at least one segment |
| TutorTrees.ChildNamed | src/main/java/com/addthis/treetutor/TutorTree.java:339 | getNode returns a child of that name, and none exactly when no child has it |
| TutorTrees.RecordBundles | src/main/java/com/addthis/treetutor/TutorTree.java:80-91 | the bundle each record binds to |
| TutorTrees.Feed | src/main/java/com/addthis/treetutor/TutorTree.java:79-95 | processBundles consumes at most the remaining records |
| TutorTrees.FeedAdvance | src/main/java/com/addthis/treetutor/TutorTree.java:80-92 | each iteration sends the next bundle, or fails with sendComplete before the NoSuchElement |
| TutorTrees.TutorTree.Init | src/main/java/com/addthis/treetutor/TutorTree.java:58-61 | the view starts empty with nothing inserted or sent |
| TutorTrees.TutorTree.Create | src/main/java/com/addthis/treetutor/TutorTree.java:55-64 | the input's errors, then processBundles' error or the events it sends |
| TutorTrees.TutorTree.ProcessBundles | src/main/java/com/addthis/treetutor/TutorTree.java:79-95 | sends exactly `Feed`'s events and advances the input past the records it consumed |
| TutorTrees.TutorTree.SendNext | src/main/java/com/addthis/treetutor/TutorTree.java:80-91 | one record: its bundle is sent, or its error raised after sendComplete when the row runs out |
| TutorTrees.TutorTree.Build | src/main/java/com/addthis/treetutor/TutorTree.java:136-138 | the view becomes and returns the whole tree |
| TutorTrees.TutorTree.Step | src/main/java/com/addthis/treetutor/TutorTree.java:178-180 | the view becomes `StepView` of the old view over the root's children |
| TutorTrees.TutorTree.StepFrom | src/main/java/com/addthis/treetutor/TutorTree.java:188-248 | the in-place loops compute exactly `StepView`: the new array, the iterator position and the inserted flag |
| TutorTrees.TutorTree.ForEntries | src/main/java/com/addthis/treetutor/TutorTree.java:199-212 | the for loop over the array leaves exactly the cursor `ForFrom` computes: the array with matching entries stepped, `next`, the iterator positions and the inserted flag |
| TutorTrees.TutorTree.BindKeys | src/main/java/com/addthis/treetutor/TutorTree.java:82-90 | the key loop fills the bundle as `RecordBundle`, or fails as it does |
| TutorTrees.TutorTree.BindKey | src/main/java/com/addthis/treetutor/TutorTree.java:84-89 | one key: bound to the next cell as `Fill` one key further, or the end signalled with NoSuchElement, or the null cell's exception |
| TutorTrees.TutorTree.Find | src/main/java/com/addthis/treetutor/TutorTree.java:326-343 | the root for a null path, else the descent through the path's segments; a missing node on the way is a null dereference |
| TutorTrees.Descend | src/main/java/com/addthis/treetutor/TutorTree.java:330-340 | the only failure is the null dereference; a node found is named by the last segment |
| TutorTreeLemmas.BuildEntries | src/main/java/com/addthis/treetutor/TutorTree.java:145-171 | each entry's title matches its node, is starred exactly when the node has data, and is a folder exactly when it has children |
| TutorTreeLemmas.StepOnBuilt | src/main/java/com/addthis/treetutor/TutorTree.java:188-248 | stepping a fully built view adds nothing |
| TutorTreeLemmas.StepOnEmptyView | src/main/java/com/addthis/treetutor/TutorTree.java:225-245 | the first step adds the first child, with no children and its folder flag |
| TutorTreeLemmas.WhileAppendsOne | src/main/java/com/addthis/treetutor/TutorTree.java:194-246 | the outer loop adds at most one entry, and only with inserted set |
| TutorTreeLemmas.StepAppendsOne | src/main/java/com/addthis/treetutor/TutorTree.java:194-245 | a step adds at most one entry at a level, a new leaf entry for one of the remaining children, and sets inserted when it does |
| TutorTreeLemmas.ExtendsReflexive | src/main/java/com/addthis/treetutor/TutorTree.java:188-248 | a view extends itself |
| TutorTreeLemmas.ExtendsTransitive | src/main/java/com/addthis/treetutor/TutorTree.java:188-248 | view extension is transitive |
| TutorTreeLemmas.StepExtends | src/main/java/com/addthis/treetutor/TutorTree.java:199-244 | step never removes or renames an entry: the new view extends the old one at every depth |
| TutorTreeLemmas.WhileExtends | src/main/java/com/addthis/treetutor/TutorTree.java:194-246 | the outer loop only extends the view |
| TutorTreeLemmas.ForExtends | src/main/java/com/addthis/treetutor/TutorTree.java:199-213 | the inner loop only extends the view |
| TutorTreeLemmas.StepMayInsertTwice | src/main/java/com/addthis/treetutor/TutorTree.java:189-204 | one step can add an entry under two different siblings, because each recursive call resets inserted |
| TutorTreeLemmas.RenderLines | src/main/java/com/addthis/treetutor/TutorTree.java:123-131 | toString has one line per node |
| TutorTreeLemmas.Lines | src/main/java/com/addthis/treetutor/TutorTree.java:123-131 | the lines of toString, one per node in pre-order |
| TutorTreeLemmas.RenderIsLines | src/main/java/com/addthis/treetutor/TutorTree.java:123-131 | toString is the pre-order lines, each the node's name indented by one tab per depth and ended by a newline |
| TutorTrees.Render | src/main/java/com/addthis/treetutor/TutorTree.java:123-131 | empty exactly when there are no children; otherwise it ends with a line break |
| TutorTrees.Outline | src/main/java/com/addthis/treetutor/TutorTree.java:115-117 | empty exactly for a store without nodes below the root; otherwise newline-terminated (`TutorTreeLemmas.RenderIsLines` gives the lines) |
| TutorTreeLemmas.SampleLines | src/test/java/com/addthis/treetutor/TutorTreeTest.java:101-113 | the lines of the test's tree, in the order the test expects |
| TutorTreeLemmas.SampleOutline | src/test/java/com/addthis/treetutor/TutorTreeTest.java:101-113 | the tree of the test's records renders to the text the test expects |
| TutorTreeLemmas.SegmentsJoin | src/main/java/com/addthis/treetutor/TutorTree.java:330-337 | the segments rejoin to the path; all but the last are non-empty and slash-free |
| TutorTreeLemmas.DescendAppend | src/main/java/com/addthis/treetutor/TutorTree.java:330-340 | descending through two paths is descending through one, then the other |
| TutorTreeLemmas.FindChild | src/main/java/com/addthis/treetutor/TutorTree.java:326-343 | a slash-free path finds the root's child of that name |
| TutorTreeLemmas.FeedSucceeds | src/main/java/com/addthis/treetutor/TutorTree.java:79-95 | processBundles succeeds exactly when every record binds |
| TutorTreeLemmas.FeedComplete | src/main/java/com/addthis/treetutor/TutorTree.java:79-95 | on success every bundle is sent in order, then sendComplete |
| TutorTreeLemmas.FeedFails | src/main/java/com/addthis/treetutor/TutorTree.java:79-95 | on the first bad record, the bundles before it are sent, then sendComplete when the row ran out, and its error is raised |
| TreeSessions.Fresh | src/main/java/com/addthis/tutor/tree/TreeTutorState.java:45-53 | a state from a directory alone has no tree and is not built |
| TreeSessions.Open | src/main/java/com/addthis/tutor/tree/TreeTutorState.java:62-90 | opens exactly when the tree builds, holding that tree, not marked built |
| TreeSessions.NextOffset | src/main/java/com/addthis/tutor/tree/TreeTutorState.java:133-136 | the next offset is -1 or a later line break |
| TreeSessions.ValidPreserved | src/main/java/com/addthis/tutor/tree/TreeTutorState.java:200-245 | getState and updateStash keep the session valid |
| TreeSessions.GetTreeBuildsOnlyWhenStale | src/main/java/com/addthis/tutor/tree/TreeTutorState.java:99-114 | getTree rebuilds only for a new input or configuration or when not built; it closes the old tree, disables step, and a repeat call returns the same tree |
| TreeSessions.StepAfterGetTree | src/main/java/com/addthis/tutor/tree/TreeTutorState.java:109-127 | after getTree builds, step changes nothing |
| TreeSessions.StepAdvances | src/main/java/com/addthis/tutor/tree/TreeTutorState.java:127-148 | step restarts on new input, moves to the next line break (skipping the header from 0), and builds over the text before it |
| TreeSessions.NextOffsetLines | src/main/java/com/addthis/tutor/tree/TreeTutorState.java:133-136 | each step takes in exactly one more line |
| TreeSessions.NextOffsetCount | src/main/java/com/addthis/tutor/tree/TreeTutorState.java:133-136 | the prefix a step moves to holds one more line break than before (exactly one from the start) |
| TreeSessions.NextOffsetNone | src/main/java/com/addthis/tutor/tree/TreeTutorState.java:133-136 | a step from a line break finds none exactly when no line break follows |
| TreeSessions.StepAfterBackOffset | src/main/java/com/addthis/tutor/tree/TreeTutorState.java:133-165 | the offset back moves to steps forward to where back started |
| TreeSessions.BackUndoesStep | src/main/java/com/addthis/tutor/tree/TreeTutorState.java:126-183 | back after step restores the state and the tree, apart from the trees closed |
| TreeSessions.StepUndoesBack | src/main/java/com/addthis/tutor/tree/TreeTutorState.java:126-183 | step after back restores the state and the tree, apart from the trees closed |
| TreeSessions.StepRestarts | src/main/java/com/addthis/tutor/tree/TreeTutorState.java:200-237 | after reset or getState, step starts again from the first record |
| TreeSessions.ResetForcesRebuild | src/main/java/com/addthis/tutor/tree/TreeTutorState.java:200-211 | reset closes the tree, forces the next getTree to build, and restores the default configuration |
| TreeSessions.StashOnly | src/main/java/com/addthis/tutor/tree/TreeTutorState.java:218-220 | updateStash changes only the stash |
| TreeTutorStates.TreeTutorState.FromDirectory | src/main/java/com/addthis/tutor/tree/TreeTutorState.java:45-53 | the fields are `Fresh` |
| TreeTutorStates.TreeTutorState.Init | src/main/java/com/addthis/tutor/tree/TreeTutorState.java:80-90 | the fields once the tree is built: the input, configuration, path and ops given, stash "[]", offsets 0, not built |
| TreeTutorStates.TreeTutorState.Create | src/main/java/com/addthis/tutor/tree/TreeTutorState.java:62-90 | fails with the builder's error, else the fields are `Open` |
| TreeTutorStates.TreeTutorState.CloseTree | src/main/java/com/addthis/tutor/tree/TreeTutorState.java:103-105 | the current tree, if any, is closed |
| TreeTutorStates.TreeTutorState.Rebuild | src/main/java/com/addthis/tutor/tree/TreeTutorState.java:101-108 | closes the tree and builds a new one, keeping the closed tree when building throws |
| TreeTutorStates.TreeTutorState.GetTree | src/main/java/com/addthis/tutor/tree/TreeTutorState.java:99-114 | state and result as `TreeSessions.GetTree` |
| TreeSessions.GetTree | src/main/java/com/addthis/tutor/tree/TreeTutorState.java:99-114 | keeps `Valid`; returns the current tree unchanged unless stale; a stale call that succeeds returns the tree over the whole input and disables step |
| TreeTutorStates.TreeTutorState.Step | src/main/java/com/addthis/tutor/tree/TreeTutorState.java:126-153 | state and result as `TreeSessions.Step` |
| TreeSessions.Step | src/main/java/com/addthis/tutor/tree/TreeTutorState.java:126-153 | keeps `Valid`; does nothing once step is disabled; otherwise the new offset is -1 or beyond where the step started, and a returned tree is the one kept |
| TreeTutorStates.TreeTutorState.MoveOffsets | src/main/java/com/addthis/tutor/tree/TreeTutorState.java:128-136 | the offsets step moves to |
| TreeTutorStates.TreeTutorState.Back | src/main/java/com/addthis/tutor/tree/TreeTutorState.java:161-183 | state and result as `TreeSessions.Back` |
| TreeSessions.Back | src/main/java/com/addthis/tutor/tree/TreeTutorState.java:161-183 | keeps `Valid`; does nothing after a full build; a rebuilt tree moves the window back, the old start becoming the new end |
| TreeTutorStates.TreeTutorState.Reset | src/main/java/com/addthis/tutor/tree/TreeTutorState.java:200-211 | the state as `TreeSessions.Reset` |
| TreeSessions.Reset | src/main/java/com/addthis/tutor/tree/TreeTutorState.java:200-211 | the tree is closed and dropped and the session is left valid and unbuilt |
| TreeTutorStates.TreeTutorState.UpdateStash | src/main/java/com/addthis/tutor/tree/TreeTutorState.java:218-220 | the state as `TreeSessions.UpdateStash` |
| TreeTutorStates.TreeTutorState.GetState | src/main/java/com/addthis/tutor/tree/TreeTutorState.java:235-245 | the saved fields, with both offsets zeroed |
| FilterLines.Split | src/main/java/com/addthis/hydratutor/HydraTutorState.java:218 | splitting on runs of line breaks leaves no line break in any piece |
| FilterLines.DropTrailingEmpty | src/main/java/com/addthis/hydratutor/HydraTutorState.java:218 | String.split drops exactly the trailing empty pieces |
| FilterLines.SplitJoin | src/main/java/com/addthis/hydratutor/HydraTutorState.java:218 | non-empty lines joined by newlines split back into those lines |
| FilterLines.PiecesJoin | src/main/java/com/addthis/hydratutor/HydraTutorState.java:218 | splitting at line-break runs recovers the non-empty lines joined by newlines |
| FilterLines.SplitTrimmed | src/main/java/com/addthis/hydratutor/HydraTutorState.java:177-218 | trimmed input gives the single line "" when blank, otherwise only non-empty lines |
| FilterLines.Emitted | src/main/java/com/addthis/hydratutor/HydraTutorState.java:229-239 | no lines, no exception: a failure needs a line (`EmittedFailure` makes it the first failing line's exception; `EmittedSucceeds` and `EmittedAll` give the output) |
| FilterLines.EmittedSucceeds | src/main/java/com/addthis/hydratutor/HydraTutorState.java:229-239 | the output exists exactly when every line's filtering succeeds |
| FilterLines.EmittedFailure | src/main/java/com/addthis/hydratutor/HydraTutorState.java:229-239 | a failed output carries the first failing line's error |
| FilterLines.EmittedNext | src/main/java/com/addthis/hydratutor/HydraTutorState.java:229-239 | each iteration appends the line's output and a newline, or ends with its error |
| FilterLines.EmittedAll | src/main/java/com/addthis/hydratutor/HydraTutorState.java:229-239 | the output has one newline-terminated line per input line |
| FilterLines.EmittedLines | src/main/java/com/addthis/hydratutor/HydraTutorState.java:229-239 | the output so far has one newline per line emitted |
| FilterLines.EmittedStops | src/main/java/com/addthis/hydratutor/HydraTutorState.java:229-239 | nothing is emitted after the first failing line |
| HydraSessions.Run | src/main/java/com/addthis/hydratutor/HydraTutorState.java:222-270 | eval-java filters are refused unless allowed; with no filter, IllegalState |
| HydraSessions.Attempt | src/main/java/com/addthis/hydratutor/HydraTutorState.java:165-271 | the call leaves the future alone |
| HydraSessions.FilterCall | src/main/java/com/addthis/hydratutor/HydraTutorState.java:164-279 | filter's result is its try block's; the future is untouched |
| HydraSessions.Reset | src/main/java/com/addthis/hydratutor/HydraTutorState.java:281-290 | reset cancels the future and drops the cache and both filters |
| HydraSessions.NullGivesEmpty | src/main/java/com/addthis/hydratutor/HydraTutorState.java:166-168 | a null input or filter returns "" and changes nothing |
| HydraSessions.BadTypeRejected | src/main/java/com/addthis/hydratutor/HydraTutorState.java:170-174 | an unknown filter type throws IllegalState and clears the cache and filters |
| HydraSessions.GoodTypeAccepted | src/main/java/com/addthis/hydratutor/HydraTutorState.java:176-182 | a known type caches the trimmed filter text with its type |
| HydraSessions.AutoExactlyOne | src/main/java/com/addthis/hydratutor/HydraTutorState.java:188-208 | "auto" succeeds exactly when the text decodes as exactly one kind, and holds that filter |
| HydraSessions.DecodeAs | src/main/java/com/addthis/hydratutor/HydraTutorState.java:209-215 | an explicit kind holds only a filter of that kind, exactly when it decodes; a decode error holds nothing; otherwise the set-up's exception propagates with the filter stored |
| HydraSessions.ByTrial | src/main/java/com/addthis/hydratutor/HydraTutorState.java:188-208 | each kind is held exactly when it decodes; no error exactly when one kind and not the other is held |
| HydraSessions.Decode | src/main/java/com/addthis/hydratutor/HydraTutorState.java:186-215 | a configuration error leaves no filter; a success holds exactly one filter; "bundle" never holds a value filter and "value" never a bundle filter |
| HydraSessions.ExplicitKind | src/main/java/com/addthis/hydratutor/HydraTutorState.java:209-215 | "value" and "bundle" decode only that kind |
| HydraSessions.CacheHitReuses | src/main/java/com/addthis/hydratutor/HydraTutorState.java:179-218 | the same filter text and type reuse the decoded filter without decoding again |
| HydraSessions.CacheMissDecodes | src/main/java/com/addthis/hydratutor/HydraTutorState.java:181-216 | new filter text or type decodes afresh and fails with the decoding error |
| HydraSessions.ErrorClears | src/main/java/com/addthis/hydratutor/HydraTutorState.java:272-277 | a runtime exception clears the cache and both filters |
| HydraSessions.RepeatIsCached | src/main/java/com/addthis/hydratutor/HydraTutorState.java:164-279 | a successful call repeated gives the same output and state |
| HydraSessions.ValueLinesCounted | src/main/java/com/addthis/hydratutor/HydraTutorState.java:229-239 | a value filter's output has one line per input line |
| HydraSessions.ResetForcesDecode | src/main/java/com/addthis/hydratutor/HydraTutorState.java:281-290 | after reset the next call decodes the filter again |
| HydraSessions.ValueResults | src/main/java/com/addthis/hydratutor/HydraTutorState.java:229-234 | the output of each line under a value filter |
| HydraSessions.BundleResults | src/main/java/com/addthis/hydratutor/HydraTutorState.java:248-267 | one result per input line, line i's being that line's bundle filtering (`EmittedAll` gives the output) |
| HydraTutorStates.HydraTutorState.constructor | src/main/java/com/addthis/hydratutor/HydraTutorState.java:43-46 | a new state has no filters, no cache and no future |
| HydraTutorStates.HydraTutorState.Filter | src/main/java/com/addthis/hydratutor/HydraTutorState.java:164-279 | the fields and result as `FilterCall` |
| HydraTutorStates.HydraTutorState.Attempt | src/main/java/com/addthis/hydratutor/HydraTutorState.java:166-271 | the fields and result as `Attempt` |
| HydraTutorStates.HydraTutorState.DecodeFilters | src/main/java/com/addthis/hydratutor/HydraTutorState.java:186-215 | the filters and error as `Decode` |
| HydraTutorStates.HydraTutorState.DecodeInto | src/main/java/com/addthis/hydratutor/HydraTutorState.java:209-215 | decodes one kind and sets it up; a decoded filter is kept even when its setup throws |
| HydraTutorStates.HydraTutorState.RunFilters | src/main/java/com/addthis/hydratutor/HydraTutorState.java:222-270 | the output as `Run` |
| HydraTutorStates.HydraTutorState.ValueOutput | src/main/java/com/addthis/hydratutor/HydraTutorState.java:229-239 | the builder loop yields `Emitted` over the value lines |
| HydraTutorStates.HydraTutorState.BundleOutput | src/main/java/com/addthis/hydratutor/HydraTutorState.java:248-267 | the builder loop yields `Emitted` over the bundle lines |
| HydraTutorStates.HydraTutorState.Reset | src/main/java/com/addthis/hydratutor/HydraTutorState.java:281-290 | the fields as `Reset` |
| HydraTutorStates.HydraTutorState.SetFuture | src/main/java/com/addthis/hydratutor/HydraTutorState.java:292-294 | only the future changes, to the given one |
| HydraTutorStates.HydraTutorState.GetFuture | src/main/java/com/addthis/hydratutor/HydraTutorState.java:296-298 | returns the future held |
| FilterSessions.Cleanup | src/main/java/com/addthis/tutor/filter/HydraTutorState.java:293-303 | a closeable filter is closed and dropped with the cache; the data directory is deleted; nothing else changes |
| FilterSessions.Run | src/main/java/com/addthis/tutor/filter/HydraTutorState.java:212-282 | running only creates the CMS-limit data directory |
| FilterSessions.Attempt | src/main/java/com/addthis/tutor/filter/HydraTutorState.java:94-283 | the call leaves the future alone |
| FilterSessions.DoFilter | src/main/java/com/addthis/tutor/filter/HydraTutorState.java:92-291 | a runtime exception clears the cache and all three filters |
| FilterSessions.AmbiguityNamesOp | src/main/java/com/addthis/tutor/filter/HydraTutorState.java:138-155 | an op's ambiguity error starts by naming the op |
| FilterSessions.OpResolution | src/main/java/com/addthis/tutor/filter/HydraTutorState.java:136-164 | an op known to two registries is an ambiguity error naming it; to one, decoded as that kind; to none, "Cannot recognize" |
| FilterSessions.TrialResolution | src/main/java/com/addthis/tutor/filter/HydraTutorState.java:165-198 | without an op, succeeds exactly when one kind decodes, holding that filter; no kind is the "Cannot convert" error |
| FilterSessions.DecodedOne | src/main/java/com/addthis/tutor/filter/HydraTutorState.java:136-205 | a successful decoding holds exactly one filter |
| FilterSessions.NullGivesEmpty | src/main/java/com/addthis/tutor/filter/HydraTutorState.java:84-96 | a null input or filter returns "" after the closeable cleanup |
| FilterSessions.BadTypeRejected | src/main/java/com/addthis/tutor/filter/HydraTutorState.java:98-102 | an unknown filter type throws IllegalState and clears the cache and all filters |
| FilterSessions.CacheHitReuses | src/main/java/com/addthis/tutor/filter/HydraTutorState.java:107-208 | the same filter text and type reuse the decoded filter |
| FilterSessions.CacheMissDecodes | src/main/java/com/addthis/tutor/filter/HydraTutorState.java:107-206 | new filter text or type decodes afresh; on success a non-closeable filter stays cached |
| FilterSessions.AttemptMiss | src/main/java/com/addthis/tutor/filter/HydraTutorState.java:107-206 | a cache miss holds exactly the decoded filters; with a closeable filter still held, its cleanup drops the new cache key and the config parse throws NullPointerException with no filter held |
| FilterSessions.AfterFilter | src/main/java/com/addthis/tutor/filter/HydraTutorState.java:84-90 | after filter no closeable filter or data directory is left, and runtime errors clear everything |
| FilterSessions.ValueLinesCounted | src/main/java/com/addthis/tutor/filter/HydraTutorState.java:219-230 | a value filter's output has one line per input line |
| FilterSessions.ResetClears | src/main/java/com/addthis/tutor/filter/HydraTutorState.java:305-315 | reset cancels the future, closes the closeable filter, and forces the next call to decode |
| FilterSessions.ValueResults | src/main/java/com/addthis/tutor/filter/HydraTutorState.java:219-230 | each line's output under a value filter, "null" for a null result |
| FilterSessions.BundleResults | src/main/java/com/addthis/tutor/filter/HydraTutorState.java:239-279 | one result per input line, line i's being that line's bundle filtering (`EmittedAll` gives the output) |
| FilterTutorStates.HydraTutorState.constructor | src/main/java/com/addthis/tutor/filter/HydraTutorState.java:50-55 | a new state has no filters, no cache, no data directory and no future |
| FilterTutorStates.HydraTutorState.Filter | src/main/java/com/addthis/tutor/filter/HydraTutorState.java:84-90 | the fields and result as `FilterCall` |
| FilterTutorStates.HydraTutorState.DoFilter | src/main/java/com/addthis/tutor/filter/HydraTutorState.java:92-291 | the fields and result as `DoFilter` |
| FilterTutorStates.HydraTutorState.Attempt | src/main/java/com/addthis/tutor/filter/HydraTutorState.java:94-283 | the fields and result as `Attempt` |
| FilterTutorStates.HydraTutorState.DecodeFilters | src/main/java/com/addthis/tutor/filter/HydraTutorState.java:131-205 | the filters and error as `Decode` |
| FilterTutorStates.HydraTutorState.DecodeByOp | src/main/java/com/addthis/tutor/filter/HydraTutorState.java:137-164 | the filters and error as `ByOp` |
| FilterTutorStates.HydraTutorState.DecodeByTrial | src/main/java/com/addthis/tutor/filter/HydraTutorState.java:165-197 | the filters and error as `ByTrial` |
| FilterSessions.DecodeAs | src/main/java/com/addthis/tutor/filter/HydraTutorState.java:198-204 | an explicit kind throws exactly when it does not decode, then holding nothing; otherwise exactly one filter is held, of that kind, the decoded one |
| FilterSessions.ByOp | src/main/java/com/addthis/tutor/filter/HydraTutorState.java:137-164 | an error holds no filter; a filter held is of the one kind whose registry alone knows the op; a success holds exactly one filter |
| FilterSessions.ByTrial | src/main/java/com/addthis/tutor/filter/HydraTutorState.java:165-197 | each kind is held exactly when it decodes; a success holds exactly one filter |
| FilterSessions.Decode | src/main/java/com/addthis/tutor/filter/HydraTutorState.java:131-205 | an op-reading error holds no filter; a success holds exactly one; "value" and "bundle" hold only their own kind |
| FilterTutorStates.HydraTutorState.DecodeInto | src/main/java/com/addthis/tutor/filter/HydraTutorState.java:166-177 | decodes one kind into its field, leaving the field as it was on failure |
| FilterTutorStates.HydraTutorState.RunFilters | src/main/java/com/addthis/tutor/filter/HydraTutorState.java:212-282 | the output and the data directory as `Run` |
| FilterTutorStates.HydraTutorState.ValueOutput | src/main/java/com/addthis/tutor/filter/HydraTutorState.java:219-230 | the builder loop yields `Emitted` over the value lines |
| FilterTutorStates.HydraTutorState.BundleOutput | src/main/java/com/addthis/tutor/filter/HydraTutorState.java:239-279 | the builder loop yields `Emitted` over the bundle lines |
| FilterTutorStates.HydraTutorState.CleanupCloseableFilter | src/main/java/com/addthis/tutor/filter/HydraTutorState.java:293-303 | the fields as `Cleanup` |
| FilterTutorStates.HydraTutorState.Reset | src/main/java/com/addthis/tutor/filter/HydraTutorState.java:305-315 | the fields as `Reset` |
| FilterSessions.FilterCall | src/main/java/com/addthis/tutor/filter/HydraTutorState.java:84-90 | doFilter's result; afterwards no closeable filter and no data directory remain, and the future is untouched |
| FilterSessions.Reset | src/main/java/com/addthis/tutor/filter/HydraTutorState.java:305-315 | every field cleared; the future, if any, appended to the cancelled ones and the closeable filter to the closed ones |
| FilterTutorStates.HydraTutorState.SetFuture | src/main/java/com/addthis/tutor/filter/HydraTutorState.java:317-319 | only the future changes, to the given one |
| FilterTutorStates.HydraTutorState.GetFuture | src/main/java/com/addthis/tutor/filter/HydraTutorState.java:321-323 | returns the future held |

## Left out

- JSON arrays and objects are updated in place in the source (`treeArray`, `jArray.put`, the child arrays `step` recurses into). The model treats them as values (`ViewNode` sequences) with the iterator positions written out. Aliasing between a view and its caller's copy is therefore not modelled.
- CSV parsing (supercsv) is not modelled. Records are given as sequences of cells, with `None` for the null an empty column yields.
- JSON decoding and printing, `Double.parseDouble` and `Double.toString`, `ValueFactory.decodeValue`, the Hydra codec, configuration parsing, the plugin registries and the filters' own work are library code. They enter as function-valued fields of `Values.Runtime`, `HydraSessions.Plugins` and `FilterSessions.Plugins`. In the newer filter tutor, `toValueObject` and the value filter's output text are inside `Plugins.valueLine`.
- The tree builder (`TreeMapper`), its data directory and `ReadTree` are not modelled. A built tree is a `StoreNode` value. Building is a `TreeSessions.Builder` that reports whether construction throws. The mapper is a list of send/complete events.
- File system work is not modelled. This covers directory deletion and creation, temporary CMS-limit directories (a boolean) and the rebuilt CMS-limit filter.
- `Future` cancellation is modelled as a list of cancelled futures, a future as a number. Concurrency and logging are not modelled.
- `System.out` printing is not modelled. This includes the no-argument `TutorTree.toString`'s first line, `readTree.getIterator().next()`, which throws on an empty store; `TutorTrees.Outline` returns the empty text there instead.
- `LosslessTokenizer.setSeparator`, `setGrouping`, `setPacking` and the getters are not modelled. The tokenizer's settings are fixed at construction. `filterLine` and `filterValue` are identities and are omitted.
- `TutorTree.query`, `checkPath`, `getTable`, `getData`, `openTree`, `closeTree` and `sendComplete` are not modelled; each runs queries against, or manages, the data store. `TreeTutorState.query`, `getData`, `getDir` and the no-argument `getTree` are not modelled either.
- `JSONBundleFormat.getVersion` returns a class object and is not modelled.
- TreeRows.TreeInput.Create: `checkArgument`'s failure is modelled as an IllegalArgument with an empty message, because the message text is not part of the source.
- BundleFormat.JSONBundleFormat.CreateBundle: the exception is modelled as Unsupported with an empty message.
- BundleFields.HashCode: the hash of a named field is `String.hashCode` of the name, computed with 32-bit wrap-around in `JavaStrings.StringHash` over the UTF-16 code units a Java string holds (a supplementary character counts as its two surrogates). Unpaired surrogates cannot occur, since a Dafny `char` is a Unicode scalar value.
- TokenizerSpec.Configure: a null element in the group array, which `LosslessTokenizer.initialize` dereferences (NullPointerException at LosslessTokenizer.java:74), cannot be expressed: the groups are a sequence of strings with no null.
- ValueLemmas.RoundTrip: states the round trip only for canonical values. Doubles and maps format through library code. Strings containing quotes, backslashes or (when nested) `]`, and empty arrays, do not round-trip in the source either. Arrays are nested at most two deep: the tokenizer does not nest groups of the same kind, so in `[[[1] , [2]]]` the first inner `]` closes the group and the following comma splits the token.
- TokenizerLemmas.QuotedFieldsRoundTrip: stated for unpacked settings only. Packing drops empty tokens, so empty fields cannot survive it.
- TutorTrees.StepView: its own contract bounds only the iterator position. What a step adds is stated by `TutorTreeLemmas.StepAppendsOne` and `TutorTreeLemmas.StepExtends`.
- TokenizerSpec.Alphabets: reads group strings as Unicode scalars, while `LosslessTokenizer.initialize` counts UTF-16 code units with `length()` and `charAt`. A group string containing a supplementary character (above U+FFFF) is therefore accepted or split differently. For text within the Basic Multilingual Plane, the two readings coincide (`JavaStrings.Utf16Bmp`).
- TokenizerSpec.Scan: reads the line, separators and group characters as Unicode scalars, while `LosslessTokenizer.tokenize` walks the line with `charAt` and looks up each code unit with `indexOf`. A supplementary character used as a separator or group delimiter is one character in the model but two surrogate units in the source, so such a configuration tokenizes differently. The same holds for `TokenizerSpec.Configure`, `TokenizerSpec.Tokenize` and `Tokenizer.ScanLine`. Within the Basic Multilingual Plane the readings coincide.
- TreeRows.CheckedText: a JSON decoding failure is represented by the rejected text, so the wrapped message carries that text where the source carries the decoder's own message.
- JavaStrings.ParseLong: accepts ASCII digits only. `Long.parseLong` reads digits through `Character.digit`, so it also accepts other Unicode decimal digits.

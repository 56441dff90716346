# A verified model of a hand-written JSON parser

This project models `parse` in `src/main.rs`, together with the helpers it
calls. `parse` is a small JSON parser, "walks and sounds like a javascript
JSON.parse". It takes a string and returns a `Json` value or a `SyntaxError`.

It has no recursion. One `while cursor < input_len` loop drives three LIFO
stacks:
- `state_stack` holds the open constructs, each with its start cursor.
- `json_result_stack` holds finished values, each with an anchor cursor.
- `object_parse_states` holds `ParseKey`/`ParseValue` markers.

When an array or object closes, it rebuilds itself from the result entries
anchored above its start cursor.

Modules, one per file:

- `Outcomes` (`outcomes.dfy`): `SyntaxError` and the outcome of a call.
  - An outcome is `Ok`, `Err` (a returned `SyntaxError`) or `Crash`.
  - `Crash` stands for a Rust panic: an index past the end, a slice whose
    start is after its end, `last().unwrap()` on an empty result stack, or a
    failed `assert_eq!`.
- `Values` (`values.dfy`): the `Json` value, plus the two `Index` operators as
  functions with preconditions in place of their panics.
- `Lexical` (`lexical.dfy`):
  - `is_number` and `is_space`;
  - the literal matcher `compare_letter`, as a `for` loop proved against a
    function;
  - the recogniser that stands in for `str::parse::<f64>`.
- `Machine` (`machine.dfy`): the loop as a state machine.
  - `Config` is the cursor plus the three stacks. The last element of each
    sequence is the top of its stack.
  - `Step` is one iteration, dispatched on the top state like the source's
    `match`.
  - `Run` is the loop to its end. It terminates because every step either
    moves the cursor forward or keeps it and pops a state.
  - `ParseSpec` is the whole function.
- `Parser` (`parser.dfy`): `parse` as the imperative code it is.
  - The stacks are local sequences that the loop reassigns.
  - There is one method per arm of the `match`, plus the array- and
    object-closing inner loops.
  - Each is proved equal to its `Machine` function. `Parse` is proved to
    return `ParseSpec(input)`.
- `Properties` (`properties.dfy`): facts about every input.
  - The stack discipline the loop keeps.
  - Exactly what an array close and an object close do to the stacks.
  - Which key wins when a key repeats.
  - The error paths of `:`, of the key slot and of the literal states.
- `Scenarios` (`scenarios.dfy`): complete runs.
  - The six unit tests of the source.
  - Inputs that show its corner cases: `"[1]"`, `"{}"`, `"[1,\"a\"]"`,
    `"tru"`, a repeated key, `"{\"a\":0}"` and others.

Behaviour kept as the code has it:
- Whitespace is skipped before the dispatch on the top state.
- `compare_letter` compares only the first `len - 1` letters of a literal's
  tail, so `tru` parses as `true`. It can also index past the end.
- A number closed by the last character of the input takes that character
  into its span, so `[1]` is an error.
- Objects are anchored at their `}`; literals at the cursor after their last
  letter. Strings, numbers and arrays are anchored at their start.
- `0` and `-` open nothing: they are not number characters.
- Characters that open nothing are skipped, at the top level, in an array, in
  an object key slot and in an object value slot.

## Model

| member | source | states |
|---|---|---|
| Lexical.IsNumber | src/main.rs:127-138 | true exactly for `'1'`..`'9'` and `'.'`, so `'0'`, `'-'` and `'e'` are excluded |
| Lexical.IsSpace | src/main.rs:140-142 | true exactly for space, newline and tab; no space is a number character |
| Lexical.LetterCheck | src/main.rs:148-156 | the matcher's only error is `UnexpectedChar(cursor)`, the cursor it was called with; its only panic is an index at or past the end of the input, and before the last letter of the tail |
| Lexical.ParsesAsFloat | src/main.rs:267 | a text accepted as a number is neither empty nor a lone point |
| Lexical.CompareLetter | src/main.rs:148-156 | the `for` loop with early returns computes `LetterCheck`: a mismatch returns `UnexpectedChar(cursor)`, and reading past the end of the input is a panic |
| Lexical.LetterCheckMeaning | src/main.rs:148-156 | the matcher succeeds iff the first `len - 1` letters of the tail are present at the cursor (the last letter is never read); every error is `UnexpectedChar(cursor)`; it panics iff the input ends inside a matching prefix |
| Lexical.NotFloatAt | src/main.rs:267 | a span holding a character other than a digit or a point is not accepted as a number |
| Values.At | src/main.rs:43-53 | indexing an array by position returns one of its items; any other use is outside the precondition (a panic in the source) |
| Values.Get | src/main.rs:55-64 | indexing an object by key returns the value stored under that key; any other use is outside the precondition |
| Machine.TryOpen | src/main.rs:179-207 | exactly `1-9 . " { [ n t f` open a construct, each its own kind; an opener pushes one state anchored at the given cursor, any other character leaves the state stack alone; `ParseKey` is pushed exactly for `{` |
| Machine.Jsons | src/main.rs:236-242 | the values of a run of result entries, element by element in the same order, with nothing added or dropped |
| Machine.ArrayCut | src/main.rs:236-241 | the array close stops at the first entry from the top anchored at or below the start; every entry above the cut is anchored above the start |
| Machine.ArrayCutUnique | src/main.rs:236-241 | that stopping point is the only index with those two properties |
| Machine.CloseObjectLoop | src/main.rs:287-311 | the object-closing loop only pops: what it leaves is a prefix of the result stack and no more markers than it started with, and it stops with no marker left, no result left, or the top result at or below the start |
| Machine.CloseObject | src/main.rs:283-317 | a successful close moves the cursor past the `}` and pops exactly the object's state |
| Machine.CloseArray | src/main.rs:231-247 | the array close moves the cursor past the `]`, pops exactly the array's state and leaves the markers alone |
| Machine.StringStep | src/main.rs:218-229 | the string arm makes progress on every `Ok`: the cursor moves forward |
| Machine.ArrayStep | src/main.rs:230-255 | the array arm makes progress on every `Ok`: the cursor moves forward |
| Machine.NumberStep | src/main.rs:256-277 | the number arm makes progress on every `Ok`: it moves the cursor, or keeps it and pops the state |
| Machine.ObjectStep | src/main.rs:278-353 | the object arm makes progress on every `Ok` |
| Machine.LiteralStep | src/main.rs:354-392 | the literal arms make progress on every `Ok` |
| Machine.Step | src/main.rs:173-397 | one loop iteration: whitespace, an empty state stack, or the arm of the top state; every `Ok` step moves the cursor forward or keeps it and pops a state, which is why the loop ends |
| Machine.Run | src/main.rs:173-398 | the loop to its end; it terminates because every step makes progress, it never returns `NoEnd`, and every error it returns points at or after the cursor it started from and no further than the end of the input |
| Machine.Finish | src/main.rs:403-405 | after the loop the result is `Ok` exactly when no state is open and one root result is left, and then it is that root; a violated `assert_eq!` is a panic, never an `Err` |
| Machine.ParseSpec | src/main.rs:161-406 | the whole function: `NoEnd` is returned exactly for the empty input, and every other error points into the input or at its end |
| Parser.CollectArray | src/main.rs:231-247 | the pop-push-reverse loop leaves exactly the entries below the cut and yields the values above it in source order |
| Parser.CollectObject | src/main.rs:283-311 | the object-closing `while` loop computes `CloseObjectLoop` |
| Parser.StringArm | src/main.rs:218-229 | the string arm computes `StringStep` |
| Parser.ArrayArm | src/main.rs:230-255 | the array arm computes `ArrayStep` |
| Parser.NumberArm | src/main.rs:256-277 | the number arm computes `NumberStep` |
| Parser.ObjectArm | src/main.rs:278-353 | the object arm computes `ObjectStep` |
| Parser.LiteralArm | src/main.rs:354-392 | the three literal arms compute `LiteralStep` |
| Parser.Iteration | src/main.rs:174-397 | one pass of the loop body computes `Step` |
| Parser.Parse | src/main.rs:161-406 | the loop over the three stacks and the final checks return `ParseSpec(input)`; the loop keeps the stack discipline on every pass |
| Properties.InitialDisciplined | src/main.rs:168-171 | the loop starts with the stack discipline |
| Properties.OpenDisciplined | src/main.rs:179-207 | opening a construct under an array, an object or nothing keeps the discipline |
| Properties.CloseDisciplined | src/main.rs:222-226 | popping the top state and pushing a result anchored at or above everything kept keeps the discipline |
| Properties.ArrayCutBelow | src/main.rs:236-241 | on a sorted result stack, every entry the array close keeps is anchored at or below the array's start |
| Properties.StepDisciplined | src/main.rs:173-397 | every successful iteration preserves the discipline: sorted result anchors behind the cursor, state anchors behind the cursor, only arrays and objects below the top state, and an open scalar above every finished result |
| Properties.StringDisciplined | src/main.rs:218-229 | the string arm keeps the discipline |
| Properties.NumberDisciplined | src/main.rs:256-277 | the number arm keeps the discipline |
| Properties.ArrayDisciplined | src/main.rs:230-255 | the array arm keeps the discipline |
| Properties.ArrayCloseDisciplined | src/main.rs:231-247 | the array close keeps the discipline |
| Properties.LiteralDisciplined | src/main.rs:354-392 | the literal arms keep the discipline |
| Properties.ObjectDisciplined | src/main.rs:278-353 | the object arm keeps the discipline |
| Properties.ObjectCloseDisciplined | src/main.rs:283-317 | the object close keeps the discipline |
| Properties.ArrayCutSplits | src/main.rs:236-241 | on a sorted stack the cut splits the results, without loss or reordering, into the entries at or below the start and those above it |
| Properties.ArrayCutPartition | src/main.rs:236-242 | the entries the array close keeps, followed by those it takes, are the whole result stack: nothing is lost or reordered |
| Properties.ArrayClose | src/main.rs:231-247 | `]` on an open array pops its state, removes exactly the entries anchored above its start, leaves the rest untouched, and pushes one `Array` of the removed values in source order, anchored at the start |
| Properties.CloseRound | src/main.rs:290-303 | one round of the object close takes the top two entries as value and key, pops two markers, and inserts the pair |
| Properties.CloseMembers | src/main.rs:287-311 | a whole run of key/value entries above the start is consumed with its markers, adding `FirstWins` of the run to the map |
| Properties.CloseMembersStop | src/main.rs:287-311 | with nothing above the start below the run, the close stops right under the run |
| Properties.StepClosesObject | src/main.rs:283 | on `}` with an object open, the iteration is the object close, whatever the stacks hold |
| Properties.FirstWinsKeys | src/main.rs:303 | the keys of the built object are exactly the keys of the members |
| Properties.FirstWinsFirst | src/main.rs:290-303 | pairs are inserted from the last to the first, so with a repeated key the first occurrence's value is the one kept |
| Properties.ObjectCloseMembers | src/main.rs:283-317 | `}` on an open object whose results above its start form a run of members pops the state, the members and their markers, and pushes one `Object` anchored at the `}` |
| Properties.ObjectCloseUnwrapsEmpty | src/main.rs:287-292 | when markers remain below the members but no result does, `json_result_stack.last().unwrap()` (src/main.rs:288) is called on an empty result stack (a panic) |
| Properties.CloseKeyNotString | src/main.rs:294-309 | a value whose key entry is not a string gives `Unknown("object key not string", cursor)` |
| Properties.CloseKeyMissing | src/main.rs:294-309 | a value with no entry below it gives the same error |
| Properties.SpaceSkipped | src/main.rs:209-211 | whitespace only moves the cursor, whatever state is open |
| Properties.StaysOnlyOnNumberClose | src/main.rs:256-277 | the only successful step that keeps the cursor closes a number and pops exactly its state |
| Properties.ObjectColon | src/main.rs:318-330 | `:` is `"no last state"` with no marker and `"last state was value!"` after `ParseValue`; after `ParseKey` it pushes `ParseValue` and advances |
| Properties.KeySlot | src/main.rs:342-348 | in a key slot, an opener other than `"` is `UnexpectedChar(cursor)`; `"` opens a string at the cursor; any other character is skipped |
| Properties.ValueSlot | src/main.rs:336-341 | in a value slot, any construct may open at the cursor and the results are untouched |
| Properties.NoSlot | src/main.rs:349-352 | with no marker left, any other character is `Unknown("unknow object char", cursor)` |
| Properties.LiteralOutcome | src/main.rs:354-392 | a literal state succeeds iff its tail's letters but the last are present; on success the cursor moves by 3, 4 or 3, the state is popped and `True`, `False` or `Null` is pushed at the new cursor; a mismatch is `UnexpectedChar(cursor)`; a panic happens only if the input ends inside a matching prefix |
| Scenarios.EmptyInput | src/main.rs:164-166 | the empty document is `NoEnd` |
| Scenarios.CloseSingle | src/main.rs:283-317 | a `}` that closes an object holding one member, for any key and value, leaves that object, a one-entry map, as the only result |
| Scenarios.RootString | src/main.rs:408-412 | `"2222"` parses to the string `2222` |
| Scenarios.RootNumber | src/main.rs:414-418 | `1221` parses to the number `1221` |
| Scenarios.RootArray | src/main.rs:420-426 | `[1, 2,  "3"]` parses to the three items in order, and indexing reaches each |
| Scenarios.SomeThingReal | src/main.rs:428-435 | the object test parses to its three fields, and lookups return them |
| Scenarios.NestedObject | src/main.rs:437-444 | the nested object test parses, and chained lookups return the inner fields |
| Scenarios.TrueFalseNull | src/main.rs:446-453 | the three literals parse as object values |
| Scenarios.NumberBeforeLastBracket | src/main.rs:256-277 | `[1]` is `UnexpectedChar(3)`: the number's span takes in the final `]` |
| Scenarios.NumberBeforeSpaceAndBracket | src/main.rs:209-211 | `[1 ]` is `UnexpectedChar(4)`: the space is skipped before the number state sees it |
| Scenarios.EmptyObjectPanics | src/main.rs:287-288 | `{}` reaches `json_result_stack.last().unwrap()` (src/main.rs:288) with an empty result stack (a panic) |
| Scenarios.StringAfterCommaPanics | src/main.rs:248-250 | `[1,"a"]` opens the string on the quote after the comma and then closes it on that same quote, so the slice is reversed (a panic) |
| Scenarios.TrailingCommaPanics | src/main.rs:248-250 | `["a",` reads one past the end of the input |
| Scenarios.LoneDigitPanics | src/main.rs:403 | `1` leaves the number state open, so the first `assert_eq!` fails |
| Scenarios.TruncatedTrue | src/main.rs:148-156 | `tru` parses as `true` |
| Scenarios.DuplicateKeyFirstWins | src/main.rs:287-303 | `{"a":true,"a":null}` keeps `true` |
| Scenarios.ZeroValueMisreported | src/main.rs:182-197 | in `{"a":0}` the `0` opens nothing, so the key is taken as the value and the close reports `object key not string` at 6 |

## Left out

- `main` (src/main.rs:457-481) reads `foo.json`, times the parse with the
  wall clock and prints. It is I/O and benchmarking only.
- `v8-json.js` times Node's built-in `JSON.parse`. It is I/O and a foreign
  call, with no logic of its own.
- `str::parse::<f64>` and the `f64` payload of `Json::Number` are
  floating-point. A `Number` holds the scanned text instead. `ParsesAsFloat`
  accepts a run of ASCII digits with at most one point and at least one digit.
  That is what Rust's parser accepts on the texts the parser can hand it, which
  always begin with `1`-`9` or `.`. Exponents, signs, `inf` and `nan` cannot
  reach it, and the conversion's rounding is not modelled.
- The inline capacity of `SmallVec` (128), the `smartstring` representation
  and `HashMap` hashing are not modelled. The stacks are sequences and an
  object is a `map`. The iteration order of a `HashMap` is not observable
  through the model.
- The `Display` text of `SyntaxError` (src/main.rs:113-125) and the output of
  `dbg!` and `println!` (src/main.rs:305, 350) are text output only.
- Byte offsets versus character positions: the source slices `input` by the
  cursor, which counts characters. The model assumes ASCII input, where the two
  agree. On other input the source can slice inside a character and panic.
- Behaviour kept as the code has it, where it differs from JavaScript's
  `JSON.parse`:
  - With a repeated key the first occurrence wins, where `JSON.parse` keeps
    the last. The close inserts pairs from the top of the stack down.
  - Characters that open nothing are skipped silently rather than rejected.
  - `{"a":0}` and `{}` fail, with an error and a panic respectively.
  - Panics are modelled as `Crash` outcomes rather than left unspecified.
- Machine.ObjectStep: the object arm's own whitespace test
  (src/main.rs:280-282) is kept, but it can never fire. The loop skips
  whitespace before the dispatch.

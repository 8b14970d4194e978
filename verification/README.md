# cdumay_result in Dafny

A model of the operation-result record of the Rust crate `cdumay_result`. The
record holds an identifier, a `u16` status code, optional stdout and stderr
texts, and a string-keyed map of return data. Around it sit a few pure
operations: error classification, a binary combination, a one-line rendering,
a conversion from an external error, and a builder with defaults.

The repository holds three versions of the record, and their rules differ.
Each version is modelled in its own module and never merged with the others:

- `Results`, `Builder` and `ResultOps` model the current `Result` (`src/result.rs`)
  and its builder (`src/builder.rs`). `is_error` is `retcode >= 300 || retcode == 1`.
  `+` keeps the right operand's identifier and the larger code. It newline-joins
  the outputs and lets the right map win on a shared key. The builder always
  wraps the joined outputs, so two absent channels come out as `Some("")`.
  `add` and `from` are written in terms of the builder, so they sit in
  `ResultOps`, which comes after `Builder`. Dafny modules cannot import each
  other in a cycle.
- `Repr` models `ResultRepr` (`src/repr.rs`). It uses the same classification
  and map rule, but two absent channels stay absent. The combined identifier
  is a new one, taken from neither operand.
- `Execution` models `ExecutionResult` (`src/lib.rs`), the oldest version. Its
  outputs are plain strings and its default `is_error` is true exactly for
  code 0. `merge` keeps the left identifier and takes the right output when it
  is non-empty, with no concatenation. The left map wins on a shared key.
- `Jsonify` models `JsonResult` (`src/jsonify.rs`), a field-for-field copy
  with its own classification.
- `Common` holds the shared types: `Option`, the `u16` and 128-bit `Uuid`
  subset types, the error record, `Max` and the two map unions.
- `Text` models Rust's `{}` of a code and `{:?}` of an `Option<String>`. Each
  comes with a parser, so that the renderings are shown to lose nothing.
- `Versions` holds the lemmas that contrast the three versions.

The combination is sometimes described as taking the right operand's
identifier. That holds only for `src/result.rs`: `ResultRepr` takes a new one
and `ExecutionResult` keeps the left one. The model follows the code.

The structured values in the return map are a type parameter `V`: the code
only stores and moves them. Random identifiers (`Uuid::new_v4()` and
`random_uuid()`) are an explicit `newId` parameter. The lemmas that mention
it show where it ends up. `Sum` in `ResultOps` and in `Repr` is a left-to-right
fold of the combination. Callers use the combination this way, and the fold
lemmas describe what the combination does across a sequence.

## Model

| member | source | states |
|---|---|---|
| Common.Max | src/result.rs:103-108 | the larger of two codes: at least each operand's code and equal to one of them; all three combinations take their code this way |
| Common.MaxAssociative | src/repr.rs:59-62 | taking the larger code can be bracketed either way |
| Common.UnionRightWins | src/result.rs:122-127 | `append` keeps the keys of both maps; on a shared key the right value is kept, otherwise each side's own value |
| Common.UnionLeftWins | src/lib.rs:87-98 | the union keeps both key sets; the left value wins on a shared key and right-only keys keep the right value |
| Common.UnionRightWinsAssociative | src/repr.rs:54-58 | right-wins union can be bracketed either way |
| Common.UnionLeftWinsIsSwappedRightWins | src/lib.rs:87-98 | the left-wins union is the right-wins union with operands swapped |
| Text.Decimal | src/result.rs:153-154 | the code renders as a non-empty digit string that starts with 0 only for code 0 |
| Text.DecimalRoundTrip | src/result.rs:153-154 | reading the rendered digits gives the code back |
| Text.DecimalInjective | src/result.rs:153-154 | different codes render differently |
| Text.EscapeDebug | src/result.rs:153-154 | the `{:?}` escaping is never shorter than its input, can be undone exactly, and leaves a string of printable ASCII without quote or backslash as it was |
| Text.DebugOption | src/result.rs:153-154 | `None` renders as "None", `Some(s)` as `Some("` + escaped text + `")`, and the rendering reads back to the same option |
| Text.DebugOptionPlain | tests/test_result.rs:37-53 | a string of printable ASCII without quote or backslash renders as `Some("` + text + `")` |
| Text.Line | src/result.rs:151-156 | the line `Result: Err(<code>, stderr: <option>)` or `Result: Ok(<code>, stdout: <option>)` reads back as exactly the classification, code and channel option it was made from |
| Text.LinePlain | src/result.rs:153-154 | with plain text in the channel, the line is the literal `Err`/`stderr` or `Ok`/`stdout` form around the decimal code and `Some("<text>")` |
| Text.LinePlainCodeOne | tests/test_result.rs:37-40 | the error line for code 1 and plain text is `Result: Err(1, stderr: Some("<text>"))` |
| Text.LinePlainCodeZero | tests/test_result.rs:50-53 | the success line for code 0 and plain text is `Result: Ok(0, stdout: Some("<text>"))` |
| Text.LineInjective | src/repr.rs:67-74 | two rendered lines are equal if and only if they come from the same classification, code and channel |
| Results.IsError | src/result.rs:68-70 | a result is not an error exactly when its code is 0 or in 2..299 |
| Results.Display | src/result.rs:151-156 | the rendering reads back as the classification, the code and the stderr (error) or stdout (success), and nothing else |
| Results.DisplayDeterminedByShown | src/result.rs:151-156 | two results render alike if and only if they agree on the code and on the channel shown |
| Results.DisplayPlainText | src/result.rs:151-156 | with plain text in the shown channel, the line is `Result: Err(<code>, stderr: Some("<text>"))` or the `Ok`/stdout form |
| Results.DisplayErrExample | tests/test_result.rs:37-40 | a code-1 result with plain stderr text renders as `Result: Err(1, stderr: Some("<text>"))` |
| Results.DisplayOkPlain | src/result.rs:151-156 | a code-0 result with plain stdout text renders as `Result: Ok(0, stdout: Some("<text>"))` |
| Results.DisplayOkExample | tests/test_result.rs:50-53 | a code-0 result with stdout "Ok !" renders as `Result: Ok(0, stdout: Some("Ok !"))` |
| Builder.Default | src/builder.rs:49-57 | the default builder holds code 0, no stdout, no stderr, an empty map and the drawn identifier |
| Builder.WithUuid | src/builder.rs:66-69 | sets the identifier and leaves the other four fields unchanged |
| Builder.WithRetcode | src/builder.rs:76-79 | sets the code and leaves the other four fields unchanged |
| Builder.WithStdout | src/builder.rs:86-89 | stdout becomes present with the given text, even when it is empty; the other fields are unchanged |
| Builder.WithStderr | src/builder.rs:96-99 | stderr becomes present with the given text, even when it is empty; the other fields are unchanged |
| Builder.WithRetval | src/builder.rs:106-109 | replaces the map and leaves the other four fields unchanged |
| Builder.Build | src/builder.rs:112-120 | the built record carries exactly the five values the builder holds |
| Builder.SetterFrame | src/builder.rs:66-109 | every setter leaves every field but its own as it was |
| Builder.SetterOverwrites | src/builder.rs:66-109 | what a setter writes does not depend on what the field held before |
| Builder.UntouchedFieldKept | src/builder.rs:49-109 | in any chain of setters, a field none of them targets keeps its default |
| Builder.LastWriteWins | src/builder.rs:66-109 | in any chain of setters, each field holds what the last setter targeting it wrote |
| Builder.BuildReachesEveryResult | src/builder.rs:49-120 | every record, including those with absent channels, is built by some setter chain from the default |
| Builder.BuilderExample | tests/test_builder.rs:9-18 | default, then stdout "Test", then a map with "Hello", builds a record with stdout `Some("Test")` holding "Hello" |
| ResultOps.JoinOutput | src/result.rs:109-121 | one channel's text: newline-joined when both are present, the present one verbatim, "" when both are absent |
| ResultOps.Add | src/result.rs:100-129 | right operand's identifier; the larger code; both channels present; key union with the right value winning on shared keys |
| ResultOps.AddIgnoresNewId | src/result.rs:101-102 | the identifier drawn by the builder never shows in the combination |
| ResultOps.AddOutputChannels | src/result.rs:109-121 | for stdout and for stderr, independently: `x + "\n" + y`, the single present value, or `Some("")` and never `None` |
| ResultOps.AddErrorIff | src/result.rs:68-108 | the combination is an error if and only if a side has a code from 300 up, or the codes are a 1 with a 0 or another 1 |
| ResultOps.AddCanClearError | src/result.rs:103-108 | combining a code-1 error with a code from 2 to 299, in either order, gives a success |
| ResultOps.AddNotAssociative | src/result.rs:109-114 | two absent stdouts become `Some("")`, so bracketing changes the output (`"\n" + x` versus `x`) |
| ResultOps.AddNotIdempotent | src/result.rs:109-121 | combining a result with itself never gives it back: a present stdout is duplicated, an absent one becomes `Some("")` |
| ResultOps.AddNotCommutative | src/result.rs:102 | with different identifiers, swapping the operands changes the result |
| ResultOps.AddStdoutExample | tests/test_result.rs:61-68 | two "Ok!" outputs with no stderr combine to a success with stdout "Ok!\nOk!" and stderr `Some("")` |
| ResultOps.AddErrOkExample | tests/test_result.rs:55-58 | a code-1 and a code-0 result combine to an error in both orders |
| ResultOps.SumRetcode | src/result.rs:103-108 | a fold's code is at least every code folded in and equal to one of them |
| ResultOps.SumUuid | src/result.rs:102 | a fold carries the identifier of the last sub-result |
| ResultOps.SumKeys | src/result.rs:122-127 | a key is in the folded map if and only if the accumulator or some sub-result has it |
| ResultOps.FromError | src/result.rs:166-172 | the error's code, its message as stderr, no stdout, its details or an empty map, and the builder's identifier |
| ResultOps.FromErrorClassification | src/result.rs:166-172 | a converted error is an error exactly when its code is from 300 up or 1, and its details do not change its rendering |
| ResultOps.FromErrorExample | tests/test_result.rs:12-22 | code 1, "Unexpected error" and a context map convert to an error with that stderr and map |
| Repr.Default | src/repr.rs:20-29 | code 0, no stdout, no stderr, an empty map, and the drawn identifier |
| Repr.IsError | src/repr.rs:33-35 | a record is not an error exactly when its code is 0 or in 2..299 |
| Repr.JoinOutput | src/repr.rs:44-53 | absent if and only if both are absent; the present one verbatim; newline-joined, left first, when both are present |
| Repr.JoinOutputAssociative | src/repr.rs:44-53 | joining channels can be bracketed either way |
| Repr.Add | src/repr.rs:42-64 | new identifier; the larger code; both channels joined; key union with the right value winning on shared keys |
| Repr.InsertAll | src/repr.rs:55-57 | one insertion pass over a map, in any key order, yields the union with the inserted values winning |
| Repr.AddRetval | src/repr.rs:54-58 | inserting the left map and then the right map yields both key sets, with right values on shared keys |
| Repr.AddRetvalAgrees | src/repr.rs:54-58 | any map with that characterisation is exactly the map `Add` carries |
| Repr.AddIgnoresOperandIds | src/repr.rs:43 | the combination does not depend on the operands' identifiers |
| Repr.DefaultIsNeutral | src/repr.rs:20-64 | combining with a defaulted record, on either side, gives the other record back with the new identifier |
| Repr.AddAssociative | src/repr.rs:42-64 | the combination can be bracketed either way |
| Repr.AddErrorIff | src/repr.rs:33-62 | the combination is an error if and only if a side has a code from 300 up, or the codes are a 1 with a 0 or another 1 |
| Repr.AddExamples | src/repr.rs:110-145 | two defaults combine to a success with no stdout; "Ok!"/"Error!" pairs join with a newline; codes 1 and 0 give an error in both orders |
| Repr.SumStdout | src/repr.rs:44-48 | a fold's stdout is every present stdout newline-joined in order, and absent when none is present |
| Repr.Display | src/repr.rs:67-74 | the rendering reads back as the classification, the code and the stderr (error) or stdout (success) |
| Repr.FromError | src/repr.rs:76-86 | the code, the message as stderr, no stdout, the extra map or an empty one, and the default's identifier |
| Repr.FromErrorClassification | src/repr.rs:76-86 | a converted error is an error exactly when its code is from 300 up or 1 |
| Execution.IsError | src/lib.rs:19-25 | the default classification flags exactly code 0, and no code it flags is an error under the current rule |
| Execution.New | src/lib.rs:48-56 | each absent argument takes its default: the drawn identifier, code 0, "", "" and an empty map; present ones are kept |
| Execution.NewRebuilds | src/lib.rs:48-56 | handing `new` every field of a record rebuilds that record, whatever identifier was drawn |
| Execution.Empty | src/lib.rs:57-59 | all defaults, which the default classification counts as an error |
| Execution.Print | src/lib.rs:60-62 | stdout gains the text and a newline at its end; nothing else changes |
| Execution.PrintErr | src/lib.rs:63-65 | stderr gains the text and a newline at its end; nothing else changes |
| Execution.PrintCommutesWithPrintErr | src/lib.rs:60-65 | printing to the two channels can happen in either order |
| Execution.PrintAllAppends | src/lib.rs:60-62 | successive prints append their lines, each newline-terminated, in order |
| Execution.Merge | src/lib.rs:81-100 | left identifier; the larger code; the right output if non-empty, else the left; key union with the left value winning |
| Execution.MergeRetval | src/lib.rs:87-98 | inserting all left entries, then the right entries whose key is absent, yields the left-winning union |
| Execution.MergeNeverConcatenates | src/lib.rs:85-86 | each merged output is one of the two operands' outputs |
| Execution.MergeIdempotent | src/lib.rs:81-100 | merging a result with itself gives it back |
| Execution.MergeAssociative | src/lib.rs:81-100 | merge can be bracketed either way |
| Execution.EmptyIsNeutral | src/lib.rs:57-100 | merging in an empty result changes nothing; merging into one only takes its identifier |
| Execution.Display | src/lib.rs:103-110 | the rendering is one of the two output strings, verbatim |
| Execution.DisplayFollowsClassification | src/lib.rs:103-110 | the rendering is stdout exactly for what the default classification calls an error (code 0), else stderr |
| Execution.FromError | src/lib.rs:112-123 | the code, empty stdout, the message as stderr, the extra map, and the drawn identifier |
| Execution.FromErrorDisplay | src/lib.rs:112-123 | a converted error renders as its message, except with code 0, where it renders empty |
| Jsonify.FromResult | src/jsonify.rs:20-30 | identifier, code, both options (absence included) and the map are carried over unchanged |
| Jsonify.IsError | src/jsonify.rs:32-35 | a JSON result is not an error exactly when its code is 0 or in 2..299, as for the record it came from |
| Jsonify.ConversionRoundTrip | src/jsonify.rs:20-30 | the conversion is a bijection: nothing is lost or invented |
| Jsonify.IsErrorCommutes | src/jsonify.rs:32-35 | a converted result is an error exactly when the original is |
| Jsonify.SerializedKeys | src/jsonify.rs:9-18 | the serialised object has `uuid`, `retcode`, then `stdout`/`stderr` only when present, then `retval` |
| Versions.CurrentVersusRepr | src/result.rs:100-129 | the two combinations agree on code, map and present outputs; they differ in the identifier, and in a channel both lack (`Some("")` versus `None`) |
| Versions.SameClassification | src/repr.rs:33-35 | `Result` and `ResultRepr` classify every code alike |
| Versions.FoldStrayNewline | src/result.rs:109-114 | folding absent, absent, `x`: `ResultRepr` gives `x`, the current version `"\n" + x` |
| Versions.ClassificationsDisjoint | src/lib.rs:20-25 | the oldest classification flags exactly code 0, and no code is an error under both it and the current rule |
| Versions.MergeMapBiasReversed | src/lib.rs:87-98 | the oldest merge's map is the current combination's map with the operands swapped |
| Versions.OnlyOldestIsIdempotent | src/lib.rs:81-100 | merging a result with itself changes nothing in the oldest version, and always changes it in the current one |

## Left out

- Identifier generation. `Uuid::new_v4()` and `random_uuid()` are random, so the drawn identifier is a `newId` parameter. The hyphenated text form of `random_uuid()` is not modelled: any string stands for it.
- Serialisation. Serde derives, JSON text and deserialisation are library-generated. Only the key list of `JsonResult` is modelled (`Jsonify.SerializedKeys`). `Result` in `src/result.rs` has no skip attribute and writes `"stderr":null`; that text is not modelled.
- The contents of `serde_value::Value` and `serde_json::Value`. They are only stored and moved, so they are the type parameter `V`.
- The external error crates (`cdumay_error::Error`, `ErrorRepr`, `cdumay_errors::Error`). Each is reduced to the fields the conversion reads: `Common.ErrorRecord` and `Execution.LegacyError`. The codes of `Unexpected` and `GENERIC_ERROR` come from those crates. The error examples therefore fix the code (1) or leave it as a parameter.
- Text.EscapeChar: only ASCII is escaped as Rust's `{:?}` does. Other characters are passed through verbatim. Rust also escapes non-printable and grapheme-extending Unicode characters, which would need the Unicode tables.
- Map iteration order. `BTreeMap` iterates in key order, but `Repr.InsertAll` and `Execution.MergeRetval` visit keys in any order. Their results are the same for every order.
- In-place mutation. `print`, `print_err` and the builder setters take `&mut self` or `self`. They are modelled as functions that return the updated value.
- The accessors `uuid()`, `retcode()`, `stdout()`, `stderr()` and `retval()` of `src/lib.rs`. They are the datatype's fields.
- Module wiring. `src/lib.rs` does not declare the other modules, and `src/jsonify.rs` imports an `IsError` trait that `src/result.rs` does not define. This is version skew, not behaviour.

# Pull-based pipeline: a Dafny model of the `pipes` composition protocol

The `pipes` namespace builds linear pipelines out of three kinds of fitting:

- `PullInput<T>`, a producer that takes nothing and returns a `T`;
- `PullFilter<T, U>`, a transformer that takes a `U` and returns a `T`;
- `PullOutput<T>`, a consumer that takes a `T` and returns nothing.

There are two `<<` pipes:

- The fold pipe, `output << filter`, builds a new output that calls the filter and then the output. It calls neither of them while it builds.
- The terminal pipe, `output << input`, runs the pipeline at once as `output(input())`.

`<<` is left-associative. So `out << f1 << f2 << f3 << in` runs `in` first, then `f3`, `f2`, `f1`, and `out` last.

Every fitting can read or change the world around it, such as a captured variable or a serial port. The model makes that world an explicit type parameter `S`:

- an input is `S -> Step(S, T)`;
- a filter is `(S, U) -> Step(S, T)`;
- an output is `(S, T) -> S`.

Because calls are threaded through the world, their order can be observed, not only how they nest.

Files:

- `pipes.dfy` (module `Pipes`): the fitting datatypes and the two pipes (`Fold`, `Terminal`). It also has `FoldAll`, the left fold `output << fs[0] << ... << fs[n-1]` for chains of any length, and two reference definitions that use no pipe: `Pull` (run the filters, the one nearest the input first) and `Pipeline`. The lemmas connect them.
- `trace.dfy` (module `Trace`): wraps each fitting so that it also adds a `Call` record to a log in the world. The wrapping does not change what the fitting does otherwise. The lemmas state the exact call order of a run, and that each fitting of the chain is called exactly once. The per-fitting call counter is the number of times its `Call` appears in the log.
- `fittings.dfy` (module `Fittings`): the fitting shapes the sketches use. These are a constant input, a filter that is a plain function, and a recording output that appends each value it receives to a transcript. The file also holds lemmas about chains of plain functions.
- `sketches.dfy` (modules `NumberPipeline`, `MainPipeline`, `MultipleReturnPipeline`): the concrete pipelines of the example sketches and the values they deliver.
- `return_type.dfy` (module `ReturnType`): the fold pipe with the type the header actually declares for it (see Findings).

Serial output is modelled as the transcript of printed values (`Fittings.Record`).

The three fitting wrappers of include/PullPipeline.hpp:22-45 are the datatypes `Pipes.PullInput` (lines 22-25), `Pipes.PullOutput` (lines 31-34) and `Pipes.PullFilter` (lines 42-45). Each holds one total Dafny function.

## Model

| member | source | states |
|---|---|---|
| `Pipes.Fold` | include/PullPipeline.hpp:80-85 | Defines the fold pipe. The built output captures both fittings by value. Given `u`, it calls the filter on `u`, then the output on the filter's result, in the world the filter left. It takes no world, so building it runs nothing. Its properties are in `Pipes.FoldAllInvokes` and `Trace.FoldCallsFilterThenOutput`. |
| `Pipes.Terminal` | include/PullPipeline.hpp:55-58 | Defines the terminal pipe. It calls the input, then the output on the input's value, and returns the world the output leaves. Its properties are in `Pipes.FoldAllTerminal` and `Trace.ExactlyOnce`. |
| `Pipes.FoldAll` | include/PullPipeline.hpp:66-68 | Defines the left-associative chain `output << fs[0] << ... << fs[n-1]`, folding the first filter written first. |
| `Pipes.ThreeFilters` | include/PullPipeline.hpp:66-69 | `output << f1 << f2 << f3 << input` runs the input, then `f3`, `f2`, `f1`, then the output. Each one starts from the world the previous one left. The lemma allows four different value types; with mixed types it describes the corrected fold (see `Pipes.Fold` under Left out). |
| `Pipes.PullFront` | include/PullPipeline.hpp:82-84 | Viewed from the output's end, running a chain nearest-the-input-first means the first filter written runs last, on what the rest of the chain produced. |
| `Pipes.FoldAllInvokes` | include/PullPipeline.hpp:80-85 | An output built by left-folding any chain of filters, given `x`, pushes `x` through the filters in reverse written order. Only after that does it call the original output. Proof by induction on the chain length. |
| `Pipes.FoldAllTerminal` | include/PullPipeline.hpp:55-58 | Joining a folded chain of any length with an input gives exactly the pipe-free reference `Pipeline`: input, then the filters in reverse written order, then output. |
| `Pipes.Reuse` | include/PullPipeline.hpp:81-84 | A built output is one unchanging value. Joining it with several inputs in turn gives, for each input, the run of the pipeline written out afresh. |
| `Trace.TracedPull` | include/PullPipeline.hpp:82-84 | Running a traced chain logs the filter calls nearest-the-input first. Otherwise it gives the same world and value as the untraced chain. |
| `Trace.NearestFirst` | include/PullPipeline.hpp:57 | In an `n`-filter run, filter call number `i` is the call of the filter written at position `n - 1 - i`. |
| `Trace.FoldCallsFilterThenOutput` | include/PullPipeline.hpp:81-84 | Building with the fold pipe logs nothing, by construction: `Fold` takes no world. Calling the built output logs exactly one filter call and then one output call, and leaves the environment the untraced fittings leave. |
| `Trace.CallOrder` | include/PullPipeline.hpp:57 | A run of `output << fs[0] << ... << fs[n-1] << input` adds exactly `[input, fs[n-1], ..., fs[0], output]` to the log. Its environment ends the same as in the untraced run. |
| `Trace.NearestFirstCounts` | include/PullPipeline.hpp:66-68 | Each filter position below `n` appears exactly once among the filter calls of an `n`-filter run. No other call appears there. |
| `Trace.RunLogCounts` | include/PullPipeline.hpp:55-58 | The log of one run adds exactly one occurrence of each fitting of the chain, and nothing else. |
| `Trace.ExactlyOnce` | include/PullPipeline.hpp:55-58 | One terminal join adds exactly one to the call counter of the input, of the output and of each filter in the chain. It adds nothing to any other counter. |
| `Fittings.RecordReceivesInput` | include/PullPipeline.hpp:56-57 | A recording output joined directly with any input records the input's value once, after whatever the input did to the transcript. |
| `Fittings.PullMapAll` | include/PullPipeline.hpp:82-84 | A chain of filters that are plain functions leaves the world unchanged. It computes the written nesting `fs[0](fs[1](... fs[n-1](x)))`. |
| `Fittings.PurePipeline` | include/PullPipeline.hpp:66-69 | A constant input, any chain of plain functions and a recording output: the output records exactly the written nesting applied to the constant. |
| `Fittings.ReinvokeDeterministic` | include/PullPipeline.hpp:82 | Joining one built output of plain functions twice with an input that returns the same value records the same value twice. |
| `NumberPipeline.Constant2` | examples/NumberPipeline.cpp:6 | `constant_2`: an input that returns 2 and leaves the world alone. |
| `NumberPipeline.PrintInt` | examples/NumberPipeline.cpp:9 | `print_int`: an output that appends the value it receives to the transcript. |
| `MainPipeline.InputConstant` | src/main.cpp:7 | `input_constant`: an input that returns 4. |
| `MainPipeline.Add2` | src/main.cpp:9 | `add_2`: a filter that returns its argument plus 2, with an unbounded integer. |
| `MainPipeline.PrintValue` | src/main.cpp:11 | `print_value`: an output that appends the value it receives to the transcript. |
| `MultipleReturnPipeline.MultipleValues` | examples/MultipleReturnPipeline.cpp:6-8 | `multiple_values`: an input that returns the tuple (0, zero, `' '`). |
| `MultipleReturnPipeline.AssignFloat36Int20` | examples/MultipleReturnPipeline.cpp:10-15 | `assign_float_3_6_int_20`: a filter that sets the int field to 20 and the float field to 3.6, and keeps the char field. |
| `MultipleReturnPipeline.AssignCharS` | examples/MultipleReturnPipeline.cpp:17-21 | `assign_char_s`: a filter that sets the char field to `'s'` and keeps the int and float fields. |
| `MultipleReturnPipeline.PrintValues` | examples/MultipleReturnPipeline.cpp:25-30 | `print_values`: an output that appends the whole tuple it receives to the transcript as one entry. |
| `NumberPipeline.PrintsTwo` | examples/NumberPipeline.cpp:6-17 | `print_int << constant_2` prints 2, once. |
| `MainPipeline.PrintsSix` | src/main.cpp:7-13 | `print_value << add_2 << input_constant` prints 6, once. |
| `MultipleReturnPipeline.PrintsUpdatedTuple` | examples/MultipleReturnPipeline.cpp:6-38 | The pipeline of the sketch hands the output the tuple (20, 3.6, `'s'`), once. |
| `MultipleReturnPipeline.AnyInputGivesUpdatedTuple` | examples/MultipleReturnPipeline.cpp:10-21 | Whatever tuple the input returns, the chain of the sketch hands the output int 20, the float 3.6 and char `'s'`. The char set by one filter survives the other filter, and the int and float set by the other survive `assign_char_s`. |
| `MultipleReturnPipeline.FiltersCommute` | examples/MultipleReturnPipeline.cpp:10-21 | The two filters change disjoint fields and pass the rest through, so writing them in the other order delivers the same tuple for every input tuple. |
| `ReturnType.FoldAsDeclared` | include/PullPipeline.hpp:81-84 | Defines the fold pipe with the type line 81 declares. The built output takes the filter's output type `T`, and the lambda converts its argument back to the filter's input type with the parameter `back` before calling the filter. |
| `ReturnType.TerminalConverting` | include/PullPipeline.hpp:55-58 | Defines the terminal pipe with the output and input types unrelated, as line 56 allows. The input's value is converted into the output's type with the parameter `into`. |
| `ReturnType.AgreesWhenConversionsCancel` | include/PullPipeline.hpp:80-85 | The fold as declared behaves like the corrected fold whenever the input's value survives the round trip through the filter's output type. This covers every filter whose two types are the same. |
| `ReturnType.DeclaredFoldLosesValue` | include/PullPipeline.hpp:81-83 | As declared, `Record() << is_even << constant_4` (a `PullFilter<bool, int>`) records `false`. |
| `ReturnType.CorrectedFoldKeepsValue` | include/PullPipeline.hpp:81-83 | With the corrected fold, the same pipeline records `true`, the parity of 4. |

## Left out

- Hardware I/O is not modelled: `Serial.begin`, the `while(!Serial)` wait, and the Arduino `setup` and `loop` entry points. Serial printing stands as appending the printed value to a transcript.
- Floating point is not modelled. `divide_by_2` (examples/NumberFilterPipeline.cpp:9) is not part of this model. The float field of the tuple in examples/MultipleReturnPipeline.cpp has an arbitrary type `F`, and the value 3.6 is a parameter.
- Integer width is not modelled. `MainPipeline.Add2` adds 2 to an unbounded integer, not a fixed-width C++ `int`. The constants of the sketches are far from any overflow.
- `std::function` type erasure and overload resolution are not modelled. Dafny's static types do this job.
- Compile-time rejection of ill-typed joins is not a property of runs, so it is not stated. It holds in the model only because Dafny would not type-check such a join.
- Implicit numeric conversions at the terminal pipe are not modelled in `Pipes`. Line 56 gives the output and the input unrelated template parameters. `ReturnType.TerminalConverting` shows this conversion as an explicit parameter.
- True variadic arity is not modelled. The built lambda takes a single argument, so several values are carried as a tuple.
- Stored terminal results are not modelled. `auto pipeline = ... << constant; pipeline();` (src/main.cpp:13,24; examples/NumberFilterPipeline.cpp:15,23) does not match the header, whose terminal pipe returns `void` (include/PullPipeline.hpp:56). The model treats the terminal join as running at once, so `MainPipeline.PrintsSix` states what the join prints.
- Pipes.Fold: gives the built output the filter's INPUT type, not the `PullOutput<Output_Type>` that include/PullPipeline.hpp:81 declares. `Pipes.Fold` and `Pipes.ThreeFilters` match the source exactly only when each filter's two types are equal. With mixed types they describe the corrected protocol. As declared, `PullOutput<A> << PullFilter<A, B>` has type `PullOutput<A>`, so joining it with a further `PullFilter<B, C>` where A ≠ B fails template deduction, and the header rejects the chain of `Pipes.ThreeFilters` at compile time. `ReturnType.FoldAsDeclared` models the declared type; see Findings.
- MultipleReturnPipeline.PrintValues: records the delivered tuple as one transcript entry. The sketch prints the float, then the int, then the char, each on its own line (examples/MultipleReturnPipeline.cpp:27-29); that print order is not modelled.
- Empty fittings are not modelled. The wrappers at include/PullPipeline.hpp:23-44 inherit all of `std::function`'s constructors, including the empty and `nullptr` ones. Calling such a fitting in a join throws `std::bad_function_call`. Every fitting in the model holds a total function.
- Captured references and lifetimes are not modelled. Fittings in the model hold their captured state by value, and every effect goes through the explicit world.

## Findings

| source | as written | input that shows it | evidently intended | confidence | as-written member | corrected member |
|---|---|---|---|---|---|---|
| include/PullPipeline.hpp:81 | Line 81 types the output built by `output << filter` as `PullOutput<Output_Type>`, the filter's output type. The wrapped lambda then converts the value it is given back to the filter's input type. This loses information whenever the round trip through the filter's output type is not the identity, as with int → bool → int. For `divide_by_2`, the int → float → int round trip loses nothing for any int of magnitude at most 2^24, such as the sketch's 3. The same declaration deduces `Output_Type` from both operands, so a filter that returns a type other than the outermost output's type fails to compile. For example, `add_2` written after `divide_by_2` fails. | `PullFilter<bool, int>` `is_even` between a `PullOutput<bool>` and an input returning 4. The 4 becomes `true`, then 1, and the output receives `false`. | The built output takes the filter's input type, as the fold operator's role requires: `PullOutput<Input_Type...>`. | medium, not executed | `ReturnType.FoldAsDeclared` (`ReturnType.DeclaredFoldLosesValue`) | `Pipes.Fold` (`Pipes.FoldAllInvokes`, `ReturnType.CorrectedFoldKeepsValue`) |

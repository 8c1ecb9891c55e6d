/**
 The fold pipe as the header declares it. There the built output is typed
 `PullOutput<Output_Type>`, the FILTER'S OUTPUT type, while the lambda it
 wraps hands its argument to the filter, whose parameter type is the filter's
 input type. C++ bridges the two with implicit conversions: the producer's
 value is converted into the declared type when the built output is called,
 and converted back when the lambda calls the filter. Both conversions are
 parameters here. `Pipes.Fold` is the corrected form, whose built output takes
 the filter's input type and converts nothing.
 */
module ReturnType {
  import opened Pipes
  import opened Fittings

  /** `output << filter` as declared: the built output takes a `T`; `back` is the conversion to the filter's parameter type. */
  function FoldAsDeclared<S, T, U>(output: PullOutput<S, T>, filter: PullFilter<S, T, U>, back: T -> U): PullOutput<S, T>
  {
    PullOutput((s: S, t: T) => var r := filter.call(s, back(t)); output.call(r.world, r.value))
  }

  /** `output << input` where the input returns a `U` and the output takes a `T`: `into` is the implicit conversion. */
  function TerminalConverting<S, T, U>(output: PullOutput<S, T>, input: PullInput<S, U>, into: U -> T, s: S): S
  {
    var r := input.call(s);
    output.call(r.world, into(r.value))
  }

  /**
   Whenever the value the input returns survives the round trip through the
   declared type, the declared fold behaves like the corrected one; for a
   filter whose two types are the same both conversions are the identity.
   */
  lemma AgreesWhenConversionsCancel<S, T, U>(output: PullOutput<S, T>, filter: PullFilter<S, T, U>, input: PullInput<S, U>,
                                            into: U -> T, back: T -> U, s: S)
    requires back(into(input.call(s).value)) == input.call(s).value
    ensures TerminalConverting(FoldAsDeclared(output, filter, back), input, into, s) == Terminal(Fold(output, filter), input, s)
  {
  }

  /** C++'s conversion of an `int` to `bool`, and back. */
  function IntToBool(x: int): bool { x != 0 }
  function BoolToInt(b: bool): int { if b then 1 else 0 }

  /** A heterogeneous filter in the style of the sketches: `PullFilter<bool, int>`. */
  function IsEven<S>(): PullFilter<S, bool, int>
  {
    Map((x: int) => x % 2 == 0)
  }

  /**
   `Record() << is_even << constant_4` as declared: the 4 becomes `true` on the
   way into the built `PullOutput<bool>`, `true` becomes 1 on the way into the
   filter, and the output records `false`.
   */
  lemma DeclaredFoldLosesValue(log: seq<bool>)
    ensures TerminalConverting(FoldAsDeclared(Record(), IsEven(), BoolToInt), Constant(4), IntToBool, log) == log + [false]
  {
    var f: PullFilter<seq<bool>, bool, int> := IsEven();
    assert IntToBool(4) && BoolToInt(true) == 1;
    assert f.call(log, 1) == Step(log, false);
  }

  /** The corrected fold on the same pipeline records `true`, the parity of 4. */
  lemma CorrectedFoldKeepsValue(log: seq<bool>)
    ensures Terminal(Fold(Record(), IsEven()), Constant(4), log) == log + [true]
  {
  }
}

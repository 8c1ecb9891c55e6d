/**
 The pipelines of the example sketches. Serial printing is modelled by
 `Fittings.Record`: the world is the transcript of values printed so far.
 */
module NumberPipeline {
  import opened Pipes
  import opened Fittings

  function Constant2<S>(): PullInput<S, int>
  {
    Constant(2)
  }

  function PrintInt(): PullOutput<seq<int>, int>
  {
    Record()
  }

  /** `print_int << constant_2` prints 2, once. */
  lemma PrintsTwo(log: seq<int>)
    ensures Terminal(PrintInt(), Constant2(), log) == log + [2]
  {
  }
}

module MainPipeline {
  import opened Pipes
  import opened Fittings

  function InputConstant<S>(): PullInput<S, int>
  {
    Constant(4)
  }

  function Add2<S>(): PullFilter<S, int, int>
  {
    Map((x: int) => x + 2)
  }

  function PrintValue(): PullOutput<seq<int>, int>
  {
    Record()
  }

  /** `print_value << add_2 << input_constant` prints 6, once. */
  lemma PrintsSix(log: seq<int>)
    ensures Terminal(Fold(PrintValue(), Add2()), InputConstant(), log) == log + [6]
  {
  }
}

/**
 The tuple `(int, float, char)` of MultipleReturnPipeline. Floating point is
 not modelled: the float field has an arbitrary type `F`, and the value 3.6
 assigned to it is a parameter `f36`.
 */
module MultipleReturnPipeline {
  import opened Pipes
  import opened Fittings

  function MultipleValues<S, F>(zero: F): PullInput<S, (int, F, char)>
  {
    Constant((0, zero, ' '))
  }

  function AssignFloat36Int20<S, F>(f36: F): PullFilter<S, (int, F, char), (int, F, char)>
  {
    Map((t: (int, F, char)) => (20, f36, t.2))
  }

  function AssignCharS<S, F>(): PullFilter<S, (int, F, char), (int, F, char)>
  {
    Map((t: (int, F, char)) => (t.0, t.1, 's'))
  }

  function PrintValues<F>(): PullOutput<seq<(int, F, char)>, (int, F, char)>
  {
    Record()
  }

  /**
   `print_values << assign_char_s << assign_float_3_6_int_20 << multiple_values`
   prints the tuple (20, 3.6, 's'), once.
   */
  lemma PrintsUpdatedTuple<F>(zero: F, f36: F, log: seq<(int, F, char)>)
    ensures Terminal(Fold(Fold(PrintValues(), AssignCharS()), AssignFloat36Int20(f36)), MultipleValues(zero), log)
         == log + [(20, f36, 's')]
  {
  }

  /**
   Whatever tuple the input returns, the sketch's chain hands the output 20,
   3.6 and 's': the first filter run overwrites the int and float fields, the
   second the char field, and neither undoes the other's.
   */
  lemma AnyInputGivesUpdatedTuple<F>(f36: F, t: (int, F, char), log: seq<(int, F, char)>)
    ensures Terminal(Fold(Fold(PrintValues(), AssignCharS()), AssignFloat36Int20(f36)), Constant(t), log)
         == log + [(20, f36, 's')]
  {
  }

  /**
   The two filters touch disjoint fields, so writing them in the other order
   delivers the same tuple for every input tuple.
   */
  lemma FiltersCommute<F>(f36: F, t: (int, F, char), log: seq<(int, F, char)>)
    ensures Terminal(Fold(Fold(PrintValues(), AssignCharS()), AssignFloat36Int20(f36)), Constant(t), log)
         == Terminal(Fold(Fold(PrintValues(), AssignFloat36Int20(f36)), AssignCharS()), Constant(t), log)
  {
  }
}

/**
 The `pipes` namespace: the three kinds of fitting and the two `<<` pipes that
 join them.

 A fitting may read or change the world it runs in (a captured variable, a
 sensor, a serial port). The model makes that world explicit as a type
 parameter `S`: each fitting takes the world as it is when the fitting is
 called and gives back the world as it is when the fitting returns. A fitting
 that only computes leaves the world alone (see `Fittings.Map`).
 */
module Pipes {

  /** What a producing fitting hands back: the world after the call, and the value it returned. */
  datatype Step<S, T> = Step(world: S, value: T)

  /** `PullInput<T>`: takes no argument and returns a `T`; the start of a pipeline. */
  datatype PullInput<!S, T> = PullInput(call: S -> Step<S, T>)

  /**
   `PullFilter<T, U>`: takes a `U` and returns a `T`. As in the header, the
   returned type comes first.
   */
  datatype PullFilter<!S, T, -U> = PullFilter(call: (S, U) -> Step<S, T>)

  /** `PullOutput<T>`: takes a `T` and returns nothing; its only result is the world it leaves. */
  datatype PullOutput<!S, -T> = PullOutput(call: (S, T) -> S)

  /**
   The fold pipe `output << filter`: a new output that, when it is later given
   a `u`, calls `filter` on `u` and then `output` on what the filter returned.
   Both fittings are captured by value. No world is passed in, so building the
   new output runs nothing.
   */
  function Fold<S, T, U>(output: PullOutput<S, T>, filter: PullFilter<S, T, U>): PullOutput<S, U>
  {
    PullOutput((s: S, u: U) => var r := filter.call(s, u); output.call(r.world, r.value))
  }

  /**
   The terminal pipe `output << input`: runs the pipeline at once, calling the
   input and passing its value to the output. The C++ operator returns `void`;
   the model returns the world the run leaves behind.
   */
  function Terminal<S, T>(output: PullOutput<S, T>, input: PullInput<S, T>, s: S): S
  {
    var r := input.call(s);
    output.call(r.world, r.value)
  }

  /**
   `output << fs[0] << fs[1] << ... << fs[n-1]`: `<<` is left-associative, so
   the first filter written is folded into the output first.
   */
  function FoldAll<S, T>(output: PullOutput<S, T>, fs: seq<PullFilter<S, T, T>>): PullOutput<S, T>
    decreases |fs|
  {
    if |fs| == 0 then output else FoldAll(Fold(output, fs[0]), fs[1..])
  }

  /**
   Reference order of execution: a value `x` pulled out of the input goes
   through the filter written LAST (next to the input) first, then the one
   before it, and so on up to `fs[0]`.
   */
  function Pull<S, T>(fs: seq<PullFilter<S, T, T>>, s: S, x: T): Step<S, T>
    decreases |fs|
  {
    if |fs| == 0 then Step(s, x)
    else
      var r := fs[|fs| - 1].call(s, x);
      Pull(fs[..|fs| - 1], r.world, r.value)
  }

  /**
   Reference meaning of a whole pipeline, written without any pipe: call the
   input, pull its value through the filters nearest-first, give the result
   to the output.
   */
  function Pipeline<S, T>(output: PullOutput<S, T>, fs: seq<PullFilter<S, T, T>>, input: PullInput<S, T>, s: S): S
  {
    var r0 := input.call(s);
    var r := Pull(fs, r0.world, r0.value);
    output.call(r.world, r.value)
  }

  /** Joins the one built output `c` with each input in turn, each run starting from the world the previous one left. */
  function JoinEach<S, T>(c: PullOutput<S, T>, inputs: seq<PullInput<S, T>>, s: S): S
    decreases |inputs|
  {
    if |inputs| == 0 then s else JoinEach(c, inputs[1..], Terminal(c, inputs[0], s))
  }

  /** `Pipeline` once per input, in turn, with no pipe involved. */
  function PipelineEach<S, T>(output: PullOutput<S, T>, fs: seq<PullFilter<S, T, T>>, inputs: seq<PullInput<S, T>>, s: S): S
    decreases |inputs|
  {
    if |inputs| == 0 then s else PipelineEach(output, fs, inputs[1..], Pipeline(output, fs, inputs[0], s))
  }

  // ---------------------------------------------------------------------------
  // A fixed chain of mixed types

  /**
   `output << f1 << f2 << f3 << input`, with all four types different: the
   input runs first, then `f3`, `f2`, `f1`, and the output last, each in the
   world the one before it left.
   */
  lemma ThreeFilters<S, A, B, C, D>(output: PullOutput<S, A>, f1: PullFilter<S, A, B>, f2: PullFilter<S, B, C>,
                                    f3: PullFilter<S, C, D>, input: PullInput<S, D>, s: S)
    ensures Terminal(Fold(Fold(Fold(output, f1), f2), f3), input, s) ==
      var r0 := input.call(s);
      var r3 := f3.call(r0.world, r0.value);
      var r2 := f2.call(r3.world, r3.value);
      var r1 := f1.call(r2.world, r2.value);
      output.call(r1.world, r1.value)
  {
  }

  // ---------------------------------------------------------------------------
  // Chains of any length

  /** `Pull` seen from the output's end: the first filter written is the last one to run. */
  lemma {:induction false} PullFront<S, T>(fs: seq<PullFilter<S, T, T>>, s: S, x: T)
    requires |fs| > 0
    ensures Pull(fs, s, x) == var r := Pull(fs[1..], s, x); fs[0].call(r.world, r.value)
    decreases |fs|
  {
    if |fs| > 1 {
      var n := |fs|;
      var r := fs[n - 1].call(s, x);
      calc {
        Pull(fs, s, x);
        Pull(fs[..n - 1], r.world, r.value);
        { PullFront(fs[..n - 1], r.world, r.value); }
        var q := Pull(fs[..n - 1][1..], r.world, r.value); fs[..n - 1][0].call(q.world, q.value);
        { assert fs[..n - 1][1..] == fs[1..][..n - 2]; assert fs[1..][n - 2] == fs[n - 1]; }
        var q := Pull(fs[1..], s, x); fs[0].call(q.world, q.value);
      }
    }
  }

  /**
   An output built by folding any number of filters, once given `x`, pulls `x`
   through the filters nearest-first and only then calls the original output.
   */
  lemma {:induction false} FoldAllInvokes<S, T>(output: PullOutput<S, T>, fs: seq<PullFilter<S, T, T>>, s: S, x: T)
    ensures FoldAll(output, fs).call(s, x) == var r := Pull(fs, s, x); output.call(r.world, r.value)
    decreases |fs|
  {
    if |fs| > 0 {
      FoldAllInvokes(Fold(output, fs[0]), fs[1..], s, x);
      PullFront(fs, s, x);
    }
  }

  /**
   The left fold of any chain, joined with an input, does exactly what the
   pipe-free reference `Pipeline` says: input, then filters in reverse written
   order, then output.
   */
  lemma FoldAllTerminal<S, T>(output: PullOutput<S, T>, fs: seq<PullFilter<S, T, T>>, input: PullInput<S, T>, s: S)
    ensures Terminal(FoldAll(output, fs), input, s) == Pipeline(output, fs, input, s)
  {
    var r0 := input.call(s);
    FoldAllInvokes(output, fs, r0.world, r0.value);
  }

  /**
   One built output joined with several inputs in turn: each run behaves as if
   the pipeline had just been written out afresh; folding is done once and the
   built output is the same value for every run.
   */
  lemma {:induction false} Reuse<S, T>(output: PullOutput<S, T>, fs: seq<PullFilter<S, T, T>>, inputs: seq<PullInput<S, T>>, s: S)
    ensures JoinEach(FoldAll(output, fs), inputs, s) == PipelineEach(output, fs, inputs, s)
    decreases |inputs|
  {
    if |inputs| > 0 {
      FoldAllTerminal(output, fs, inputs[0], s);
      Reuse(output, fs, inputs[1..], Pipeline(output, fs, inputs[0], s));
    }
  }
}

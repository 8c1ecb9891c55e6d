/**
 Fittings of the shapes the example sketches use: an input that returns a
 fixed value, a filter that is a plain function of its argument, and an
 output that records each value it receives at the end of a transcript
 (what a serial print or a variable assignment leaves behind).
 */
module Fittings {
  import opened Pipes

  /** An input like `[]() { return 4; }`: returns `k` and leaves the world alone. */
  function Constant<S, T>(k: T): PullInput<S, T>
  {
    PullInput((s: S) => Step(s, k))
  }

  /** A filter like `[](auto input) { return input + 2; }`: a function of its argument that leaves the world alone. */
  function Map<S, T, U>(f: U -> T): PullFilter<S, T, U>
  {
    PullFilter((s: S, u: U) => Step(s, f(u)))
  }

  /** Each function of a chain as a filter. */
  function MapAll<S, T>(fs: seq<T -> T>): seq<PullFilter<S, T, T>>
  {
    seq(|fs|, i requires 0 <= i < |fs| => Map(fs[i]))
  }

  /** An output that appends the value it receives to the transcript the world holds. */
  function Record<T>(): PullOutput<seq<T>, T>
  {
    PullOutput((log: seq<T>, v: T) => log + [v])
  }

  /** `fs[0](fs[1](... fs[n-1](x) ...))`, the nesting as written. */
  function Nest<T>(fs: seq<T -> T>, x: T): T
    decreases |fs|
  {
    if |fs| == 0 then x else fs[0](Nest(fs[1..], x))
  }

  /** No filter: a recording output joined straight with any input records exactly the input's value, once. */
  lemma RecordReceivesInput<T>(input: PullInput<seq<T>, T>, log: seq<T>)
    ensures Terminal(Record(), input, log) == input.call(log).world + [input.call(log).value]
  {
  }

  /** Filters that are plain functions leave the world alone and compute the written nesting. */
  lemma {:induction false} PullMapAll<S, T>(fs: seq<T -> T>, s: S, x: T)
    ensures Pull(MapAll(fs), s, x) == Step(s, Nest(fs, x))
    decreases |fs|
  {
    if |fs| > 0 {
      var ms: seq<PullFilter<S, T, T>> := MapAll(fs);
      PullFront(ms, s, x);
      assert ms[1..] == MapAll(fs[1..]);
      PullMapAll(fs[1..], s, x);
    }
  }

  /**
   Any chain of plain functions between a constant input and a recording
   output: the output records `fs[0](fs[1](... fs[n-1](k) ...))` and nothing else.
   */
  lemma PurePipeline<T>(fs: seq<T -> T>, k: T, log: seq<T>)
    ensures Terminal(FoldAll(Record(), MapAll(fs)), Constant(k), log) == log + [Nest(fs, k)]
  {
    FoldAllTerminal(Record(), MapAll(fs), Constant(k), log);
    PullMapAll(fs, log, k);
  }

  /**
   Re-invocation: a built output of plain functions, joined twice with an input
   that returns the same value both times, records the same value twice.
   */
  lemma ReinvokeDeterministic<T>(fs: seq<T -> T>, k: T, log: seq<T>)
    ensures var c := FoldAll(Record(), MapAll(fs));
            Terminal(c, Constant(k), Terminal(c, Constant(k), log)) == log + [Nest(fs, k), Nest(fs, k)]
  {
    PurePipeline(fs, k, log);
    PurePipeline(fs, k, log + [Nest(fs, k)]);
  }
}

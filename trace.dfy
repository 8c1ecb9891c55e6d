/**
 Which fitting is called, and how often, when a pipeline runs.

 Every fitting is wrapped so that, besides doing its own work on the
 environment `E`, it appends one `Call` to a log kept in the world. The
 wrapping is transparent: the environment evolves exactly as without it. The
 log then shows the order of the calls and the number of times each fitting
 ran; a counter of the calls of one fitting is the number of times its `Call`
 occurs in the log.
 */
module Trace {
  import opened Pipes

  /** One call of a fitting. Filters are numbered by written position: 0 is the one next to the output. */
  datatype Call = InputCall | FilterCall(position: nat) | OutputCall

  datatype World<E> = World(env: E, calls: seq<Call>)

  function TraceInput<E, T>(input: PullInput<E, T>): PullInput<World<E>, T>
  {
    PullInput((w: World<E>) => var r := input.call(w.env); Step(World(r.world, w.calls + [InputCall]), r.value))
  }

  function TraceFilter<E, T, U>(position: nat, filter: PullFilter<E, T, U>): PullFilter<World<E>, T, U>
  {
    PullFilter((w: World<E>, u: U) => var r := filter.call(w.env, u); Step(World(r.world, w.calls + [FilterCall(position)]), r.value))
  }

  function TraceOutput<E, T>(output: PullOutput<E, T>): PullOutput<World<E>, T>
  {
    PullOutput((w: World<E>, t: T) => World(output.call(w.env, t), w.calls + [OutputCall]))
  }

  /** Each filter of a written chain, wrapped with its written position. */
  function TraceChain<E, T>(fs: seq<PullFilter<E, T, T>>): seq<PullFilter<World<E>, T, T>>
  {
    seq(|fs|, i requires 0 <= i < |fs| => TraceFilter(i, fs[i]))
  }

  /** The filter calls of an `n`-filter chain in the order they must happen: position `n - 1` first, 0 last. */
  function NearestFirst(n: nat): (r: seq<Call>)
    ensures |r| == n
    ensures forall i :: 0 <= i < n ==> r[i] == FilterCall(n - 1 - i)
  {
    if n == 0 then [] else [FilterCall(n - 1)] + NearestFirst(n - 1)
  }

  /** The calls one run of an `n`-filter pipeline makes. */
  predicate InChain(c: Call, n: nat)
  {
    c.InputCall? || c.OutputCall? || (c.FilterCall? && c.position < n)
  }

  /** The world left by joining the traced pipeline `output << fs[0] << ... << input`. */
  function TracedRun<E, T>(output: PullOutput<E, T>, fs: seq<PullFilter<E, T, T>>, input: PullInput<E, T>, w: World<E>): World<E>
  {
    Terminal(FoldAll(TraceOutput(output), TraceChain(fs)), TraceInput(input), w)
  }

  /** Pulling through a traced chain logs the filter calls nearest-first and otherwise does what the untraced chain does. */
  lemma {:induction false} TracedPull<E, T>(fs: seq<PullFilter<E, T, T>>, w: World<E>, x: T)
    ensures Pull(TraceChain(fs), w, x) ==
      var r := Pull(fs, w.env, x); Step(World(r.world, w.calls + NearestFirst(|fs|)), r.value)
    decreases |fs|
  {
    var n := |fs|;
    if n > 0 {
      var tc := TraceChain(fs);
      var r := fs[n - 1].call(w.env, x);
      var w' := World(r.world, w.calls + [FilterCall(n - 1)]);
      assert tc[n - 1].call(w, x) == Step(w', r.value);
      assert tc[..n - 1] == TraceChain(fs[..n - 1]);
      assert Pull(tc, w, x) == Pull(tc[..n - 1], w', r.value);
      TracedPull(fs[..n - 1], w', r.value);
      assert Pull(fs, w.env, x) == Pull(fs[..n - 1], r.world, r.value);
      assert w.calls + NearestFirst(n) == w'.calls + NearestFirst(n - 1);
      var q := Pull(fs[..n - 1], r.world, r.value);
      assert Pull(tc, w, x) == Step(World(q.world, w.calls + NearestFirst(n)), q.value);
    } else {
      assert w.calls + NearestFirst(0) == w.calls;
    }
  }

  /**
   Fold pipe, traced: building the new output logs nothing (no world is passed
   to `Fold`); calling it logs the filter's call and then the output's.
   */
  lemma FoldCallsFilterThenOutput<E, T, U>(output: PullOutput<E, T>, filter: PullFilter<E, T, U>, w: World<E>, u: U)
    ensures Fold(TraceOutput(output), TraceFilter(0, filter)).call(w, u) ==
      var r := filter.call(w.env, u); World(output.call(r.world, r.value), w.calls + [FilterCall(0), OutputCall])
  {
  }

  /**
   Call order: a run of `output << fs[0] << ... << fs[n-1] << input` calls the
   input, then the filters from position `n - 1` down to 0, then the output,
   and leaves the same environment as the untraced run.
   */
  lemma CallOrder<E, T>(output: PullOutput<E, T>, fs: seq<PullFilter<E, T, T>>, input: PullInput<E, T>, w: World<E>)
    ensures TracedRun(output, fs, input, w).env == Terminal(FoldAll(output, fs), input, w.env)
    ensures TracedRun(output, fs, input, w).calls == w.calls + [InputCall] + NearestFirst(|fs|) + [OutputCall]
  {
    var ti := TraceInput(input);
    var r0 := ti.call(w);
    FoldAllTerminal(TraceOutput(output), TraceChain(fs), ti, w);
    TracedPull(fs, r0.world, r0.value);
    FoldAllTerminal(output, fs, input, w.env);
  }

  /** Each filter position below `n` occurs once in `NearestFirst(n)`; nothing else occurs. */
  lemma {:induction false} NearestFirstCounts(n: nat, c: Call)
    ensures multiset(NearestFirst(n))[c] == if c.FilterCall? && c.position < n then 1 else 0
  {
    if n > 0 {
      var rest := NearestFirst(n - 1);
      NearestFirstCounts(n - 1, c);
      assert NearestFirst(n) == [FilterCall(n - 1)] + rest;
      assert multiset([FilterCall(n - 1)] + rest) == multiset{FilterCall(n - 1)} + multiset(rest);
      if c == FilterCall(n - 1) {
        assert multiset{FilterCall(n - 1)}[c] == 1;
      } else {
        assert multiset{FilterCall(n - 1)}[c] == 0;
      }
    }
  }

  /** The log of one run adds one occurrence of every call of the chain to the log before it. */
  lemma RunLogCounts(before: seq<Call>, n: nat, c: Call)
    ensures multiset(before + [InputCall] + NearestFirst(n) + [OutputCall])[c] == multiset(before)[c] + if InChain(c, n) then 1 else 0
  {
    NearestFirstCounts(n, c);
    assert multiset(before + [InputCall] + NearestFirst(n) + [OutputCall])
        == multiset(before) + multiset{InputCall} + multiset(NearestFirst(n)) + multiset{OutputCall};
  }

  /**
   Exactly once: one run adds exactly one to the call count of the input, of
   the output and of every filter in the chain, and nothing to any other count.
   */
  lemma ExactlyOnce<E, T>(output: PullOutput<E, T>, fs: seq<PullFilter<E, T, T>>, input: PullInput<E, T>, w: World<E>, c: Call)
    ensures multiset(TracedRun(output, fs, input, w).calls)[c] == multiset(w.calls)[c] + if InChain(c, |fs|) then 1 else 0
  {
    CallOrder(output, fs, input, w);
    RunLogCounts(w.calls, |fs|, c);
  }
}

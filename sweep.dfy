/**
 * The sweep of the benchmark driver: for every framework, connection count,
 * mocked processing time and pipeline size, in that nesting order, one trial
 * is run and its result is stored in a four-level tree keyed
 * framework / `connections-N` / `mocked-processing-time-N-ms` / `pipeline-N`.
 * A trial is an arbitrary function of its parameters; the wrk thread count
 * of a trial is the wrk CPU cap clamped to the connection count.
 */
module Sweep {
  import opened Wrappers
  import opened Text

  /** The parameters one trial is run with. */
  datatype TrialParams = TrialParams(framework: string, processingTimeMs: int, threads: int, connections: int, pipeline: int)

  /** wrk refuses fewer connections than threads, so a smaller connection count replaces the cap. */
  function Threads(wrkMax: int, connections: int): (t: int)
    ensures t <= connections && t <= wrkMax
    ensures t == connections || t == wrkMax
  {
    if connections < wrkMax then connections else wrkMax
  }

  // ---------------------------------------------------------------------------
  // Keys

  function ConnKey(n: int): string {
    "connections-" + IntToString(n)
  }

  function TimeKey(n: int): string {
    "mocked-processing-time-" + IntToString(n) + "-ms"
  }

  function PipeKey(n: int): string {
    "pipeline-" + IntToString(n)
  }

  /** Different numbers give different keys at every level. */
  lemma KeysInjective(a: int, b: int)
    ensures ConnKey(a) == ConnKey(b) ==> a == b
    ensures TimeKey(a) == TimeKey(b) ==> a == b
    ensures PipeKey(a) == PipeKey(b) ==> a == b
  {
    var ca, cb := ConnKey(a), ConnKey(b);
    assert ca[12..] == IntToString(a) && cb[12..] == IntToString(b);
    var ta, tb := TimeKey(a), TimeKey(b);
    assert ta[23..|ta| - 3] == IntToString(a) && tb[23..|tb| - 3] == IntToString(b);
    var pa, pb := PipeKey(a), PipeKey(b);
    assert pa[9..] == IntToString(a) && pb[9..] == IntToString(b);
    IntToStringInjective(a, b);
  }

  // ---------------------------------------------------------------------------
  // Sequences of calls and tables of results

  /** The concatenation of `f(x)` over `xs`, in order. */
  function FlatMap<X, Y>(xs: seq<X>, f: X -> seq<Y>): seq<Y> {
    if |xs| == 0 then [] else FlatMap(xs[..|xs| - 1], f) + f(xs[|xs| - 1])
  }

  /** The dict built by storing `val(x)` under `key(x)` for each `x` in turn; a later store under the same key overwrites. */
  function Tabulate<X, V>(xs: seq<X>, key: X -> string, val: X -> V): map<string, V> {
    if |xs| == 0 then map[] else Tabulate(xs[..|xs| - 1], key, val)[key(xs[|xs| - 1]) := val(xs[|xs| - 1])]
  }

  predicate Distinct<T(==)>(s: seq<T>) {
    forall i, j :: 0 <= i < j < |s| ==> s[i] != s[j]
  }

  lemma {:induction false} FlatMapLength<X, Y>(xs: seq<X>, f: X -> seq<Y>, n: nat)
    requires forall k :: 0 <= k < |xs| ==> |f(xs[k])| == n
    ensures |FlatMap(xs, f)| == |xs| * n
  {
    if |xs| > 0 {
      var init := xs[..|xs| - 1];
      assert forall k :: 0 <= k < |init| ==> init[k] == xs[k];
      FlatMapLength(init, f, n);
      assert |xs| * n == (|xs| - 1) * n + n;
    }
  }

  /** Position `j` of block `i` among blocks of `n` elements. */
  function Offset(i: nat, n: nat, j: nat): nat {
    i * n + j
  }

  /** With blocks of `n` elements each, element `j` of block `i` sits at `i * n + j`. */
  lemma {:induction false} FlatMapAt<X, Y>(xs: seq<X>, f: X -> seq<Y>, n: nat, i: nat, j: nat)
    requires forall k :: 0 <= k < |xs| ==> |f(xs[k])| == n
    requires i < |xs| && j < n
    ensures Offset(i, n, j) < |FlatMap(xs, f)| && FlatMap(xs, f)[Offset(i, n, j)] == f(xs[i])[j]
  {
    var last := |xs| - 1;
    var init := xs[..last];
    assert forall k :: 0 <= k < |init| ==> init[k] == xs[k];
    FlatMapLength(init, f, n);
    assert FlatMap(xs, f) == FlatMap(init, f) + f(xs[last]);
    OffsetInLast(last, n, j);
    if i < last {
      OffsetBelow(i, n, j, last);
      FlatMapAt(init, f, n, i, j);
    }
  }

  /** Block `i` of `n` elements ends before block `m` starts when `i < m`. */
  lemma OffsetBelow(i: nat, n: nat, j: nat, m: nat)
    requires i < m && j < n
    ensures Offset(i, n, j) < m * n
  {
    var r: nat := m - (i + 1);
    assert m * n == (i + 1) * n + r * n;
    assert r * n >= 0;
  }

  /** Block `m` of `n` elements starts at `m * n`. */
  lemma OffsetInLast(m: nat, n: nat, j: nat)
    ensures Offset(m, n, j) == m * n + j && (m + 1) * n == m * n + n
  {
  }

  lemma FlatMapSnoc<X, Y>(xs: seq<X>, f: X -> seq<Y>, i: nat)
    requires i < |xs|
    ensures FlatMap(xs[..i + 1], f) == FlatMap(xs[..i], f) + f(xs[i])
  {
    assert xs[..i + 1][..i] == xs[..i];
  }

  lemma {:induction false} FlatMapMember<X, Y>(xs: seq<X>, f: X -> seq<Y>, u: Y)
    ensures u in FlatMap(xs, f) <==> exists i :: 0 <= i < |xs| && u in f(xs[i])
  {
    if |xs| > 0 {
      var init := xs[..|xs| - 1];
      FlatMapMember(init, f, u);
      if u in FlatMap(init, f) {
        var i :| 0 <= i < |init| && u in f(init[i]);
        assert init[i] == xs[i];
      }
      if exists i :: 0 <= i < |xs| && u in f(xs[i]) {
        var i :| 0 <= i < |xs| && u in f(xs[i]);
        if i < |xs| - 1 {
          assert init[i] == xs[i];
        }
      }
    }
  }

  /** Distinct blocks with no element in common concatenate to a sequence without repeats. */
  lemma {:induction false} FlatMapDistinct<X, Y>(xs: seq<X>, f: X -> seq<Y>)
    requires Distinct(xs)
    requires forall i :: 0 <= i < |xs| ==> Distinct(f(xs[i]))
    requires forall i, j, u :: 0 <= i < |xs| && 0 <= j < |xs| && i != j && u in f(xs[i]) ==> u !in f(xs[j])
    ensures Distinct(FlatMap(xs, f))
  {
    if |xs| > 0 {
      var init := xs[..|xs| - 1];
      var last := |xs| - 1;
      FlatMapDistinct(init, f);
      var a, b := FlatMap(init, f), f(xs[last]);
      forall k | 0 <= k < |a| ensures a[k] !in b {
        FlatMapMember(init, f, a[k]);
        var i :| 0 <= i < |init| && a[k] in f(init[i]);
        assert init[i] == xs[i];
      }
      forall i, j | 0 <= i < j < |a + b| ensures (a + b)[i] != (a + b)[j] {
        if j < |a| {
        } else if i < |a| {
          assert (a + b)[j] in b;
        } else {
          assert (a + b)[i] == b[i - |a|] && (a + b)[j] == b[j - |a|];
        }
      }
    }
  }

  lemma {:induction false} TabulateKeys<X, V>(xs: seq<X>, key: X -> string, val: X -> V)
    ensures forall k :: k in Tabulate(xs, key, val) <==> exists i :: 0 <= i < |xs| && key(xs[i]) == k
  {
    if |xs| > 0 {
      var init := xs[..|xs| - 1];
      TabulateKeys(init, key, val);
      forall k | k in Tabulate(xs, key, val) ensures exists i :: 0 <= i < |xs| && key(xs[i]) == k {
        if k != key(xs[|xs| - 1]) {
          assert k in Tabulate(init, key, val);
          var i :| 0 <= i < |init| && key(init[i]) == k;
          assert xs[i] == init[i];
        }
      }
      forall k | exists i :: 0 <= i < |xs| && key(xs[i]) == k ensures k in Tabulate(xs, key, val) {
        var i :| 0 <= i < |xs| && key(xs[i]) == k;
        if i < |xs| - 1 {
          assert init[i] == xs[i];
        }
      }
    }
  }

  lemma TabulateSnoc<X, V>(xs: seq<X>, key: X -> string, val: X -> V, i: nat)
    requires i < |xs|
    ensures Tabulate(xs[..i + 1], key, val) == Tabulate(xs[..i], key, val)[key(xs[i]) := val(xs[i])]
  {
    assert xs[..i + 1][..i] == xs[..i];
  }

  /** With an injective key, the entry stored for `xs[i]` is `val(xs[i])`, whatever was stored before or after it. */
  lemma {:induction false} TabulateLookup<X, V>(xs: seq<X>, key: X -> string, val: X -> V, i: nat)
    requires i < |xs|
    requires forall a, b :: key(a) == key(b) ==> a == b
    ensures key(xs[i]) in Tabulate(xs, key, val) && Tabulate(xs, key, val)[key(xs[i])] == val(xs[i])
  {
    var init := xs[..|xs| - 1];
    if xs[i] != xs[|xs| - 1] {
      assert init[i] == xs[i];
      TabulateLookup(init, key, val, i);
    }
  }

  // ---------------------------------------------------------------------------
  // What the sweep calls, and the tree it builds

  /** The trial of one tuple: the thread count is the cap clamped to the connection count. */
  function Params(wrkMax: int, fw: string, c: int, t: int, p: int): TrialParams {
    TrialParams(fw, t, Threads(wrkMax, c), c, p)
  }

  function PipeBlock(fw: string, t: int, threads: int, c: int): int -> seq<TrialParams> {
    p => [TrialParams(fw, t, threads, c, p)]
  }

  function PipeCalls(fw: string, t: int, threads: int, c: int, pipes: seq<int>): (r: seq<TrialParams>)
    ensures |r| == |pipes|
  {
    FlatMapLength(pipes, PipeBlock(fw, t, threads, c), 1);
    FlatMap(pipes, PipeBlock(fw, t, threads, c))
  }

  function TimeBlock(wrkMax: int, fw: string, c: int, pipes: seq<int>): int -> seq<TrialParams> {
    t => PipeCalls(fw, t, Threads(wrkMax, c), c, pipes)
  }

  function TimeCalls(wrkMax: int, fw: string, c: int, times: seq<int>, pipes: seq<int>): (r: seq<TrialParams>)
    ensures |r| == |times| * |pipes|
  {
    FlatMapLength(times, TimeBlock(wrkMax, fw, c, pipes), |pipes|);
    FlatMap(times, TimeBlock(wrkMax, fw, c, pipes))
  }

  function ConnBlock(wrkMax: int, fw: string, times: seq<int>, pipes: seq<int>): int -> seq<TrialParams> {
    c => TimeCalls(wrkMax, fw, c, times, pipes)
  }

  function ConnCalls(wrkMax: int, fw: string, conns: seq<int>, times: seq<int>, pipes: seq<int>): (r: seq<TrialParams>)
    ensures |r| == |conns| * (|times| * |pipes|)
  {
    FlatMapLength(conns, ConnBlock(wrkMax, fw, times, pipes), |times| * |pipes|);
    FlatMap(conns, ConnBlock(wrkMax, fw, times, pipes))
  }

  function FrameworkBlock(wrkMax: int, conns: seq<int>, times: seq<int>, pipes: seq<int>): string -> seq<TrialParams> {
    fw => ConnCalls(wrkMax, fw, conns, times, pipes)
  }

  /** Every trial the sweep runs, in the order it runs them; there are `total_tests` of them. */
  function Schedule(wrkMax: int, fws: seq<string>, conns: seq<int>, times: seq<int>, pipes: seq<int>): (r: seq<TrialParams>)
    ensures |r| == |fws| * (|conns| * (|times| * |pipes|))
  {
    FlatMapLength(fws, FrameworkBlock(wrkMax, conns, times, pipes), |conns| * (|times| * |pipes|));
    FlatMap(fws, FrameworkBlock(wrkMax, conns, times, pipes))
  }

  function PipeValue<R>(trial: TrialParams -> R, fw: string, t: int, threads: int, c: int): int -> R {
    p => trial(TrialParams(fw, t, threads, c, p))
  }

  function PipeTable<R>(trial: TrialParams -> R, fw: string, t: int, threads: int, c: int, pipes: seq<int>): map<string, R> {
    Tabulate(pipes, PipeKey, PipeValue(trial, fw, t, threads, c))
  }

  function TimeValue<R>(trial: TrialParams -> R, wrkMax: int, fw: string, c: int, pipes: seq<int>): int -> map<string, R> {
    t => PipeTable(trial, fw, t, Threads(wrkMax, c), c, pipes)
  }

  function TimeTable<R>(trial: TrialParams -> R, wrkMax: int, fw: string, c: int, times: seq<int>, pipes: seq<int>)
    : map<string, map<string, R>>
  {
    Tabulate(times, TimeKey, TimeValue(trial, wrkMax, fw, c, pipes))
  }

  function ConnValue<R>(trial: TrialParams -> R, wrkMax: int, fw: string, times: seq<int>, pipes: seq<int>)
    : int -> map<string, map<string, R>>
  {
    c => TimeTable(trial, wrkMax, fw, c, times, pipes)
  }

  function ConnTable<R>(trial: TrialParams -> R, wrkMax: int, fw: string, conns: seq<int>, times: seq<int>, pipes: seq<int>)
    : map<string, map<string, map<string, R>>>
  {
    Tabulate(conns, ConnKey, ConnValue(trial, wrkMax, fw, times, pipes))
  }

  function FrameworkValue<R>(trial: TrialParams -> R, wrkMax: int, conns: seq<int>, times: seq<int>, pipes: seq<int>)
    : string -> map<string, map<string, map<string, R>>>
  {
    fw => ConnTable(trial, wrkMax, fw, conns, times, pipes)
  }

  /** A framework is its own key. */
  function FrameworkKey(fw: string): string {
    fw
  }

  /** The result tree: framework, then connections, then processing time, then pipeline. */
  function SweepTree<R>(trial: TrialParams -> R, wrkMax: int, fws: seq<string>, conns: seq<int>, times: seq<int>, pipes: seq<int>)
    : map<string, map<string, map<string, map<string, R>>>>
  {
    Tabulate(fws, FrameworkKey, FrameworkValue(trial, wrkMax, conns, times, pipes))
  }

  // ---------------------------------------------------------------------------
  // Steps that raise
  //
  // One step of the innermost loop runs the trial, stores its result and prints
  // a summary of it. The trial can raise (a `ValueError` from the report parser,
  // say), and so can the summary when the trial returned no report. Nothing
  // catches either exception, so the sweep stops at that step and never writes
  // its results. A step is modelled by two total functions: `raises(p)` is the
  // exception the step for `p` raises, if any, and `trial(p)` is the result it
  // stores otherwise.

  /** The steps of `ps` the sweep gets through: all of them up to and including the first that raises. */
  function RunUntilRaise<E>(raises: TrialParams -> Option<E>, ps: seq<TrialParams>): seq<TrialParams> {
    if |ps| == 0 then []
    else if raises(ps[0]).Some? then [ps[0]]
    else [ps[0]] + RunUntilRaise(raises, ps[1..])
  }

  /** The exception of the first step of `ps` that raises. */
  function FirstRaise<E>(raises: TrialParams -> Option<E>, ps: seq<TrialParams>): Option<E> {
    if |ps| == 0 then None
    else if raises(ps[0]).Some? then raises(ps[0])
    else FirstRaise(raises, ps[1..])
  }

  /** No step raises exactly when there is no first exception. */
  lemma {:induction false} FirstRaiseNone<E>(raises: TrialParams -> Option<E>, ps: seq<TrialParams>)
    ensures FirstRaise(raises, ps).None? <==> forall i :: 0 <= i < |ps| ==> raises(ps[i]).None?
  {
    if |ps| > 0 {
      var tail := ps[1..];
      FirstRaiseNone(raises, tail);
      assert forall i :: 0 < i < |ps| ==> ps[i] == tail[i - 1];
    }
  }

  /** A stretch of steps none of which raises is run in full. */
  lemma {:induction false} RunAll<E>(raises: TrialParams -> Option<E>, ps: seq<TrialParams>)
    requires FirstRaise(raises, ps).None?
    ensures RunUntilRaise(raises, ps) == ps
  {
    if |ps| > 0 {
      RunAll(raises, ps[1..]);
      assert [ps[0]] + ps[1..] == ps;
    }
  }

  /** When some step raises, the steps run are the prefix ending at the first raising step, whose exception is the one raised. */
  lemma {:induction false} RunStops<E>(raises: TrialParams -> Option<E>, ps: seq<TrialParams>)
    requires FirstRaise(raises, ps).Some?
    ensures exists k ::
      && 0 <= k < |ps| && RunUntilRaise(raises, ps) == ps[..k + 1] && raises(ps[k]) == FirstRaise(raises, ps)
      && forall j :: 0 <= j < k ==> raises(ps[j]).None?
  {
    if raises(ps[0]).Some? {
      assert ps[..1] == [ps[0]];
    } else {
      var tail := ps[1..];
      RunStops(raises, tail);
      var k :| 0 <= k < |tail| && RunUntilRaise(raises, tail) == tail[..k + 1] && raises(tail[k]) == FirstRaise(raises, tail)
        && forall j :: 0 <= j < k ==> raises(tail[j]).None?;
      assert [ps[0]] + tail[..k + 1] == ps[..k + 2];
      assert ps[k + 1] == tail[k];
      forall j | 0 <= j < k + 1 ensures raises(ps[j]).None? {
        if j > 0 {
          assert ps[j] == tail[j - 1];
        }
      }
    }
  }

  /** The first exception of two stretches of steps run one after the other. */
  lemma {:induction false} FirstRaiseAppend<E>(raises: TrialParams -> Option<E>, a: seq<TrialParams>, b: seq<TrialParams>)
    ensures FirstRaise(raises, a + b) == if FirstRaise(raises, a).Some? then FirstRaise(raises, a) else FirstRaise(raises, b)
  {
    if |a| == 0 {
      assert a + b == b;
    } else {
      assert (a + b)[0] == a[0] && (a + b)[1..] == a[1..] + b;
      FirstRaiseAppend(raises, a[1..], b);
    }
  }

  /** Running two stretches of steps one after the other: the second runs only when the first gets through. */
  lemma {:induction false} RunUntilRaiseAppend<E>(raises: TrialParams -> Option<E>, a: seq<TrialParams>, b: seq<TrialParams>)
    ensures RunUntilRaise(raises, a + b) == if FirstRaise(raises, a).Some? then RunUntilRaise(raises, a) else a + RunUntilRaise(raises, b)
  {
    if |a| == 0 {
      assert a + b == b;
    } else {
      var tail := a[1..];
      assert (a + b)[0] == a[0] && (a + b)[1..] == tail + b;
      if raises(a[0]).None? {
        RunUntilRaiseAppend(raises, tail, b);
        assert FirstRaise(raises, a) == FirstRaise(raises, tail);
        if FirstRaise(raises, tail).None? {
          assert RunUntilRaise(raises, a + b) == [a[0]] + (tail + RunUntilRaise(raises, b));
          assert [a[0]] + (tail + RunUntilRaise(raises, b)) == a + RunUntilRaise(raises, b);
        }
      }
    }
  }

  lemma {:induction false} FlatMapAppend<X, Y>(xs: seq<X>, ys: seq<X>, f: X -> seq<Y>)
    ensures FlatMap(xs + ys, f) == FlatMap(xs, f) + FlatMap(ys, f)
  {
    if |ys| == 0 {
      assert xs + ys == xs;
    } else {
      var init := ys[..|ys| - 1];
      assert (xs + ys)[..|xs + ys| - 1] == xs + init;
      FlatMapAppend(xs, init, f);
    }
  }

  /** Loop step `i` of a loop over `xs`, each round of which runs the steps `f(xs[i])`. */
  lemma StepOfLoop<X, E>(raises: TrialParams -> Option<E>, xs: seq<X>, f: X -> seq<TrialParams>, i: nat, more: seq<TrialParams>)
    requires i < |xs| && FirstRaise(raises, FlatMap(xs[..i], f)).None?
    requires more == RunUntilRaise(raises, f(xs[i]))
    ensures FirstRaise(raises, f(xs[i])).None? ==>
      FlatMap(xs[..i], f) + more == FlatMap(xs[..i + 1], f) && FirstRaise(raises, FlatMap(xs[..i + 1], f)).None?
    ensures FirstRaise(raises, f(xs[i])).Some? ==>
      FlatMap(xs[..i], f) + more == RunUntilRaise(raises, FlatMap(xs, f))
      && FirstRaise(raises, FlatMap(xs, f)) == FirstRaise(raises, f(xs[i]))
  {
    var done, step := FlatMap(xs[..i], f), f(xs[i]);
    FlatMapSnoc(xs, f, i);
    RunUntilRaiseAppend(raises, done, step);
    FirstRaiseAppend(raises, done, step);
    if FirstRaise(raises, step).Some? {
      RestOfLoop(raises, xs, f, i);
    } else {
      RunAll(raises, step);
    }
  }

  /** Once a round has raised, the rounds after it change nothing. */
  lemma RestOfLoop<X, E>(raises: TrialParams -> Option<E>, xs: seq<X>, f: X -> seq<TrialParams>, i: nat)
    requires i < |xs| && FirstRaise(raises, FlatMap(xs[..i + 1], f)).Some?
    ensures RunUntilRaise(raises, FlatMap(xs, f)) == RunUntilRaise(raises, FlatMap(xs[..i + 1], f))
    ensures FirstRaise(raises, FlatMap(xs, f)) == FirstRaise(raises, FlatMap(xs[..i + 1], f))
  {
    var head, rest := xs[..i + 1], xs[i + 1..];
    assert xs == head + rest;
    FlatMapAppend(head, rest, f);
    var done, later := FlatMap(head, f), FlatMap(rest, f);
    assert FlatMap(xs, f) == done + later;
    RunUntilRaiseAppend(raises, done, later);
    FirstRaiseAppend(raises, done, later);
  }

  // ---------------------------------------------------------------------------
  // The four loops

  method SweepPipelines<R, E>(trial: TrialParams -> R, raises: TrialParams -> Option<E>,
                              fw: string, t: int, threads: int, c: int, pipes: seq<int>)
    returns (out: Result<map<string, R>, E>, calls: seq<TrialParams>)
    ensures calls == RunUntilRaise(raises, PipeCalls(fw, t, threads, c, pipes))
    ensures out.Err? <==> FirstRaise(raises, PipeCalls(fw, t, threads, c, pipes)).Some?
    ensures out.Err? ==> FirstRaise(raises, PipeCalls(fw, t, threads, c, pipes)) == Some(out.error)
    ensures out.Ok? ==> out.value == PipeTable(trial, fw, t, threads, c, pipes)
  {
    var leaves := map[];
    calls := [];
    var f := PipeBlock(fw, t, threads, c);
    var i := 0;
    while i < |pipes|
      invariant i <= |pipes|
      invariant calls == FlatMap(pipes[..i], f) && FirstRaise(raises, calls).None?
      invariant leaves == PipeTable(trial, fw, t, threads, c, pipes[..i])
    {
      var params := TrialParams(fw, t, threads, c, pipes[i]);
      assert f(pipes[i]) == [params];
      StepOfLoop(raises, pipes, f, i, [params]);
      calls := calls + [params];
      match raises(params)
      case Some(e) =>
        return Err(e), calls;
      case None =>
        leaves := leaves[PipeKey(pipes[i]) := trial(params)];
        TabulateSnoc(pipes, PipeKey, PipeValue(trial, fw, t, threads, c), i);
      i := i + 1;
    }
    assert pipes[..i] == pipes;
    RunAll(raises, calls);
    out := Ok(leaves);
  }

  /** The thread count of one processing time: the cap, lowered to the connection count when that is smaller. */
  method ClampThreads(wrkMax: int, c: int) returns (threads: int)
    ensures threads == Threads(wrkMax, c)
  {
    threads := wrkMax;
    if c < wrkMax {
      threads := c;
    }
  }

  method SweepProcessingTimes<R, E>(trial: TrialParams -> R, raises: TrialParams -> Option<E>,
                                    wrkMax: int, fw: string, c: int, times: seq<int>, pipes: seq<int>)
    returns (out: Result<map<string, map<string, R>>, E>, calls: seq<TrialParams>)
    ensures calls == RunUntilRaise(raises, TimeCalls(wrkMax, fw, c, times, pipes))
    ensures out.Err? <==> FirstRaise(raises, TimeCalls(wrkMax, fw, c, times, pipes)).Some?
    ensures out.Err? ==> FirstRaise(raises, TimeCalls(wrkMax, fw, c, times, pipes)) == Some(out.error)
    ensures out.Ok? ==> out.value == TimeTable(trial, wrkMax, fw, c, times, pipes)
  {
    var table := map[];
    calls := [];
    var f := TimeBlock(wrkMax, fw, c, pipes);
    var i := 0;
    while i < |times|
      invariant i <= |times|
      invariant calls == FlatMap(times[..i], f) && FirstRaise(raises, calls).None?
      invariant table == TimeTable(trial, wrkMax, fw, c, times[..i], pipes)
    {
      var threads := ClampThreads(wrkMax, c);
      var leaves, more := SweepPipelines(trial, raises, fw, times[i], threads, c, pipes);
      assert f(times[i]) == PipeCalls(fw, times[i], threads, c, pipes);
      StepOfLoop(raises, times, f, i, more);
      calls := calls + more;
      if leaves.Err? {
        return Err(leaves.error), calls;
      }
      table := table[TimeKey(times[i]) := leaves.value];
      TabulateSnoc(times, TimeKey, TimeValue(trial, wrkMax, fw, c, pipes), i);
      i := i + 1;
    }
    assert times[..i] == times;
    RunAll(raises, calls);
    out := Ok(table);
  }

  method SweepConnections<R, E>(trial: TrialParams -> R, raises: TrialParams -> Option<E>,
                                wrkMax: int, fw: string, conns: seq<int>, times: seq<int>, pipes: seq<int>)
    returns (out: Result<map<string, map<string, map<string, R>>>, E>, calls: seq<TrialParams>)
    ensures calls == RunUntilRaise(raises, ConnCalls(wrkMax, fw, conns, times, pipes))
    ensures out.Err? <==> FirstRaise(raises, ConnCalls(wrkMax, fw, conns, times, pipes)).Some?
    ensures out.Err? ==> FirstRaise(raises, ConnCalls(wrkMax, fw, conns, times, pipes)) == Some(out.error)
    ensures out.Ok? ==> out.value == ConnTable(trial, wrkMax, fw, conns, times, pipes)
  {
    var table := map[];
    calls := [];
    var f := ConnBlock(wrkMax, fw, times, pipes);
    var i := 0;
    while i < |conns|
      invariant i <= |conns|
      invariant calls == FlatMap(conns[..i], f) && FirstRaise(raises, calls).None?
      invariant table == ConnTable(trial, wrkMax, fw, conns[..i], times, pipes)
    {
      var sub, more := SweepProcessingTimes(trial, raises, wrkMax, fw, conns[i], times, pipes);
      StepOfLoop(raises, conns, f, i, more);
      calls := calls + more;
      if sub.Err? {
        return Err(sub.error), calls;
      }
      table := table[ConnKey(conns[i]) := sub.value];
      TabulateSnoc(conns, ConnKey, ConnValue(trial, wrkMax, fw, times, pipes), i);
      i := i + 1;
    }
    assert conns[..i] == conns;
    RunAll(raises, calls);
    out := Ok(table);
  }

  /**
   * The whole sweep: the steps it gets through, in order, and the tree of their
   * results, which it returns (and the source then writes out) only when no step raises.
   */
  method RunSweep<R, E>(trial: TrialParams -> R, raises: TrialParams -> Option<E>,
                        wrkMax: int, fws: seq<string>, conns: seq<int>, times: seq<int>, pipes: seq<int>)
    returns (out: Result<map<string, map<string, map<string, map<string, R>>>>, E>, calls: seq<TrialParams>)
    ensures calls == RunUntilRaise(raises, Schedule(wrkMax, fws, conns, times, pipes))
    ensures out.Err? <==> FirstRaise(raises, Schedule(wrkMax, fws, conns, times, pipes)).Some?
    ensures out.Err? ==> FirstRaise(raises, Schedule(wrkMax, fws, conns, times, pipes)) == Some(out.error)
    ensures out.Ok? ==> out.value == SweepTree(trial, wrkMax, fws, conns, times, pipes)
  {
    var tree := map[];
    calls := [];
    var f := FrameworkBlock(wrkMax, conns, times, pipes);
    var i := 0;
    while i < |fws|
      invariant i <= |fws|
      invariant calls == FlatMap(fws[..i], f) && FirstRaise(raises, calls).None?
      invariant tree == SweepTree(trial, wrkMax, fws[..i], conns, times, pipes)
    {
      var sub, more := SweepConnections(trial, raises, wrkMax, fws[i], conns, times, pipes);
      StepOfLoop(raises, fws, f, i, more);
      calls := calls + more;
      if sub.Err? {
        return Err(sub.error), calls;
      }
      tree := tree[fws[i] := sub.value];
      TabulateSnoc(fws, FrameworkKey, FrameworkValue(trial, wrkMax, conns, times, pipes), i);
      i := i + 1;
    }
    assert fws[..i] == fws;
    RunAll(raises, calls);
    out := Ok(tree);
  }

  // ---------------------------------------------------------------------------
  // What the schedule and the tree promise

  /** `total_tests`: the sweep runs as many trials as the product of the four list lengths. */
  lemma ScheduleLength(wrkMax: int, fws: seq<string>, conns: seq<int>, times: seq<int>, pipes: seq<int>)
    ensures |Schedule(wrkMax, fws, conns, times, pipes)| == |fws| * |conns| * |times| * |pipes|
  {
    var nf, nc, nt, np := |fws|, |conns|, |times|, |pipes|;
    assert nf * (nc * (nt * np)) == nf * nc * nt * np;
  }

  lemma TimeCallsAt(wrkMax: int, fw: string, cn: int, times: seq<int>, pipes: seq<int>, c: nat, d: nat)
    requires c < |times| && d < |pipes|
    ensures Offset(c, |pipes|, d) < |TimeCalls(wrkMax, fw, cn, times, pipes)|
    ensures TimeCalls(wrkMax, fw, cn, times, pipes)[Offset(c, |pipes|, d)] == Params(wrkMax, fw, cn, times[c], pipes[d])
  {
    FlatMapAt(pipes, PipeBlock(fw, times[c], Threads(wrkMax, cn), cn), 1, d, 0);
    FlatMapAt(times, TimeBlock(wrkMax, fw, cn, pipes), |pipes|, c, d);
  }

  lemma ConnCallsAt(wrkMax: int, fw: string, conns: seq<int>, times: seq<int>, pipes: seq<int>, b: nat, c: nat, d: nat)
    requires b < |conns| && c < |times| && d < |pipes|
    ensures Offset(b, |times| * |pipes|, Offset(c, |pipes|, d)) < |ConnCalls(wrkMax, fw, conns, times, pipes)|
    ensures ConnCalls(wrkMax, fw, conns, times, pipes)[Offset(b, |times| * |pipes|, Offset(c, |pipes|, d))]
      == Params(wrkMax, fw, conns[b], times[c], pipes[d])
  {
    TimeCallsAt(wrkMax, fw, conns[b], times, pipes, c, d);
    FlatMapAt(conns, ConnBlock(wrkMax, fw, times, pipes), |times| * |pipes|, b, Offset(c, |pipes|, d));
  }

  /**
   * The trials come in nesting order: framework `a`, connection count `b`,
   * processing time `c` and pipeline size `d` are run at position
   * `((a * |conns| + b) * |times| + c) * |pipes| + d`.
   */
  lemma ScheduleAt(wrkMax: int, fws: seq<string>, conns: seq<int>, times: seq<int>, pipes: seq<int>, a: nat, b: nat, c: nat, d: nat)
    requires a < |fws| && b < |conns| && c < |times| && d < |pipes|
    ensures Position(a, b, c, d, |conns|, |times|, |pipes|) < |Schedule(wrkMax, fws, conns, times, pipes)|
    ensures Schedule(wrkMax, fws, conns, times, pipes)[Position(a, b, c, d, |conns|, |times|, |pipes|)]
      == Params(wrkMax, fws[a], conns[b], times[c], pipes[d])
  {
    var k2 := Offset(b, |times| * |pipes|, Offset(c, |pipes|, d));
    ConnCallsAt(wrkMax, fws[a], conns, times, pipes, b, c, d);
    FlatMapAt(fws, FrameworkBlock(wrkMax, conns, times, pipes), |conns| * (|times| * |pipes|), a, k2);
    NestedIndex(a, b, c, d, |conns|, |times|, |pipes|);
  }

  /** The position of trial `(a, b, c, d)` in row-major order over lists of `nConns`, `nTimes` and `nPipes` entries. */
  function Position(a: nat, b: nat, c: nat, d: nat, nConns: nat, nTimes: nat, nPipes: nat): nat {
    ((a * nConns + b) * nTimes + c) * nPipes + d
  }

  lemma NestedIndex(a: nat, b: nat, c: nat, d: nat, nConns: nat, nTimes: nat, nPipes: nat)
    ensures Position(a, b, c, d, nConns, nTimes, nPipes)
      == Offset(a, nConns * (nTimes * nPipes), Offset(b, nTimes * nPipes, Offset(c, nPipes, d)))
  {
    calc {
      ((a * nConns + b) * nTimes + c) * nPipes + d;
      (a * nConns + b) * nTimes * nPipes + c * nPipes + d;
      (a * nConns * nTimes + b * nTimes) * nPipes + c * nPipes + d;
      a * nConns * nTimes * nPipes + b * nTimes * nPipes + c * nPipes + d;
    }
  }

  lemma PipeCallsMember(fw: string, t: int, threads: int, c: int, pipes: seq<int>, u: TrialParams)
    ensures u in PipeCalls(fw, t, threads, c, pipes) <==> exists d :: 0 <= d < |pipes| && u == TrialParams(fw, t, threads, c, pipes[d])
  {
    FlatMapMember(pipes, PipeBlock(fw, t, threads, c), u);
  }

  lemma TimeCallsMember(wrkMax: int, fw: string, c: int, times: seq<int>, pipes: seq<int>, u: TrialParams)
    ensures u in TimeCalls(wrkMax, fw, c, times, pipes) <==>
      exists i, d :: 0 <= i < |times| && 0 <= d < |pipes| && u == Params(wrkMax, fw, c, times[i], pipes[d])
  {
    FlatMapMember(times, TimeBlock(wrkMax, fw, c, pipes), u);
    forall i | 0 <= i < |times| {
      PipeCallsMember(fw, times[i], Threads(wrkMax, c), c, pipes, u);
    }
  }

  lemma ConnCallsMember(wrkMax: int, fw: string, conns: seq<int>, times: seq<int>, pipes: seq<int>, u: TrialParams)
    ensures u in ConnCalls(wrkMax, fw, conns, times, pipes) <==>
      exists b, i, d :: 0 <= b < |conns| && 0 <= i < |times| && 0 <= d < |pipes| && u == Params(wrkMax, fw, conns[b], times[i], pipes[d])
  {
    FlatMapMember(conns, ConnBlock(wrkMax, fw, times, pipes), u);
    forall b | 0 <= b < |conns| {
      TimeCallsMember(wrkMax, fw, conns[b], times, pipes, u);
    }
  }

  /** A trial is run exactly for the tuples of the four lists. */
  lemma ScheduleMember(wrkMax: int, fws: seq<string>, conns: seq<int>, times: seq<int>, pipes: seq<int>, u: TrialParams)
    ensures u in Schedule(wrkMax, fws, conns, times, pipes) <==>
      exists a, b, i, d :: 0 <= a < |fws| && 0 <= b < |conns| && 0 <= i < |times| && 0 <= d < |pipes|
        && u == Params(wrkMax, fws[a], conns[b], times[i], pipes[d])
  {
    FlatMapMember(fws, FrameworkBlock(wrkMax, conns, times, pipes), u);
    forall a | 0 <= a < |fws| {
      ConnCallsMember(wrkMax, fws[a], conns, times, pipes, u);
    }
  }

  /** No trial runs with more wrk threads than connections or than the cap; the thread count is the smaller of the two. */
  lemma ScheduleThreads(wrkMax: int, fws: seq<string>, conns: seq<int>, times: seq<int>, pipes: seq<int>, u: TrialParams)
    requires u in Schedule(wrkMax, fws, conns, times, pipes)
    ensures u.threads <= u.connections && u.threads <= wrkMax
    ensures u.connections < wrkMax ==> u.threads == u.connections
    ensures u.connections >= wrkMax ==> u.threads == wrkMax
  {
    ScheduleMember(wrkMax, fws, conns, times, pipes, u);
  }

  /** The tree holds exactly the frameworks, and below them exactly the keys made from the three lists, level by level. */
  lemma TreeKeys<R>(trial: TrialParams -> R, wrkMax: int, fws: seq<string>, conns: seq<int>, times: seq<int>, pipes: seq<int>,
                    fw: string, c: int, t: int)
    ensures forall k :: k in SweepTree(trial, wrkMax, fws, conns, times, pipes) <==> k in fws
    ensures forall k :: k in ConnTable(trial, wrkMax, fw, conns, times, pipes) <==>
      exists i :: 0 <= i < |conns| && ConnKey(conns[i]) == k
    ensures forall k :: k in TimeTable(trial, wrkMax, fw, c, times, pipes) <==>
      exists i :: 0 <= i < |times| && TimeKey(times[i]) == k
    ensures forall k :: k in PipeTable(trial, fw, t, Threads(wrkMax, c), c, pipes) <==>
      exists i :: 0 <= i < |pipes| && PipeKey(pipes[i]) == k
  {
    TabulateKeys(fws, FrameworkKey, FrameworkValue(trial, wrkMax, conns, times, pipes));
    TabulateKeys(conns, ConnKey, ConnValue(trial, wrkMax, fw, times, pipes));
    TabulateKeys(times, TimeKey, TimeValue(trial, wrkMax, fw, c, pipes));
    TabulateKeys(pipes, PipeKey, PipeValue(trial, fw, t, Threads(wrkMax, c), c));
    forall k | k in fws ensures k in SweepTree(trial, wrkMax, fws, conns, times, pipes) {
      var i :| 0 <= i < |fws| && fws[i] == k;
      assert FrameworkKey(fws[i]) == k;
    }
  }

  lemma KeyFunctionsInjective()
    ensures forall x, y :: ConnKey(x) == ConnKey(y) ==> x == y
    ensures forall x, y :: TimeKey(x) == TimeKey(y) ==> x == y
    ensures forall x, y :: PipeKey(x) == PipeKey(y) ==> x == y
  {
    forall x, y ensures ConnKey(x) == ConnKey(y) ==> x == y {
      KeysInjective(x, y);
    }
    forall x, y ensures TimeKey(x) == TimeKey(y) ==> x == y {
      KeysInjective(x, y);
    }
    forall x, y ensures PipeKey(x) == PipeKey(y) ==> x == y {
      KeysInjective(x, y);
    }
  }

  /**
   * The leaf of every tuple holds the result of the trial run for that tuple,
   * with the clamped thread count; a repeated list entry re-runs the same trial,
   * so repeats do not change the tree.
   */
  lemma TreeLeaf<R>(trial: TrialParams -> R, wrkMax: int, fws: seq<string>, conns: seq<int>, times: seq<int>, pipes: seq<int>,
                    a: nat, b: nat, c: nat, d: nat)
    requires a < |fws| && b < |conns| && c < |times| && d < |pipes|
    ensures var tree := SweepTree(trial, wrkMax, fws, conns, times, pipes);
      && fws[a] in tree
      && ConnKey(conns[b]) in tree[fws[a]]
      && TimeKey(times[c]) in tree[fws[a]][ConnKey(conns[b])]
      && PipeKey(pipes[d]) in tree[fws[a]][ConnKey(conns[b])][TimeKey(times[c])]
      && tree[fws[a]][ConnKey(conns[b])][TimeKey(times[c])][PipeKey(pipes[d])]
         == trial(Params(wrkMax, fws[a], conns[b], times[c], pipes[d]))
  {
    KeyFunctionsInjective();
    var fw, cn, t := fws[a], conns[b], times[c];
    TabulateLookup(fws, FrameworkKey, FrameworkValue(trial, wrkMax, conns, times, pipes), a);
    TabulateLookup(conns, ConnKey, ConnValue(trial, wrkMax, fw, times, pipes), b);
    TabulateLookup(times, TimeKey, TimeValue(trial, wrkMax, fw, cn, pipes), c);
    TabulateLookup(pipes, PipeKey, PipeValue(trial, fw, t, Threads(wrkMax, cn), cn), d);
  }

  // ---------------------------------------------------------------------------
  // One leaf per tuple

  lemma PipeCallsDistinct(fw: string, t: int, threads: int, c: int, pipes: seq<int>)
    requires Distinct(pipes)
    ensures Distinct(PipeCalls(fw, t, threads, c, pipes))
  {
    FlatMapDistinct(pipes, PipeBlock(fw, t, threads, c));
  }

  lemma TimeCallsDistinct(wrkMax: int, fw: string, c: int, times: seq<int>, pipes: seq<int>)
    requires Distinct(times) && Distinct(pipes)
    ensures Distinct(TimeCalls(wrkMax, fw, c, times, pipes))
  {
    var f := TimeBlock(wrkMax, fw, c, pipes);
    forall i | 0 <= i < |times| ensures Distinct(f(times[i])) {
      PipeCallsDistinct(fw, times[i], Threads(wrkMax, c), c, pipes);
    }
    forall i, j, u | 0 <= i < |times| && 0 <= j < |times| && i != j && u in f(times[i]) ensures u !in f(times[j]) {
      PipeCallsMember(fw, times[i], Threads(wrkMax, c), c, pipes, u);
      PipeCallsMember(fw, times[j], Threads(wrkMax, c), c, pipes, u);
    }
    FlatMapDistinct(times, f);
  }

  lemma ConnCallsDistinct(wrkMax: int, fw: string, conns: seq<int>, times: seq<int>, pipes: seq<int>)
    requires Distinct(conns) && Distinct(times) && Distinct(pipes)
    ensures Distinct(ConnCalls(wrkMax, fw, conns, times, pipes))
  {
    var f := ConnBlock(wrkMax, fw, times, pipes);
    forall i | 0 <= i < |conns| ensures Distinct(f(conns[i])) {
      TimeCallsDistinct(wrkMax, fw, conns[i], times, pipes);
    }
    forall i, j, u | 0 <= i < |conns| && 0 <= j < |conns| && i != j && u in f(conns[i]) ensures u !in f(conns[j]) {
      TimeCallsMember(wrkMax, fw, conns[i], times, pipes, u);
      TimeCallsMember(wrkMax, fw, conns[j], times, pipes, u);
    }
    FlatMapDistinct(conns, f);
  }

  /** Without repeated list entries no trial is run twice. */
  lemma ScheduleDistinct(wrkMax: int, fws: seq<string>, conns: seq<int>, times: seq<int>, pipes: seq<int>)
    requires Distinct(fws) && Distinct(conns) && Distinct(times) && Distinct(pipes)
    ensures Distinct(Schedule(wrkMax, fws, conns, times, pipes))
  {
    var f := FrameworkBlock(wrkMax, conns, times, pipes);
    forall i | 0 <= i < |fws| ensures Distinct(f(fws[i])) {
      ConnCallsDistinct(wrkMax, fws[i], conns, times, pipes);
    }
    forall i, j, u | 0 <= i < |fws| && 0 <= j < |fws| && i != j && u in f(fws[i]) ensures u !in f(fws[j]) {
      ConnCallsMember(wrkMax, fws[i], conns, times, pipes, u);
      ConnCallsMember(wrkMax, fws[j], conns, times, pipes, u);
    }
    FlatMapDistinct(fws, f);
  }

  /** Where a trial's result is stored. */
  function LeafPath(u: TrialParams): (string, string, string, string) {
    (u.framework, ConnKey(u.connections), TimeKey(u.processingTimeMs), PipeKey(u.pipeline))
  }

  /** The paths of all leaves of a result tree. */
  function LeafPaths<R>(tree: map<string, map<string, map<string, map<string, R>>>>): set<(string, string, string, string)> {
    set fw, ck, tk, pk | fw in tree && ck in tree[fw] && tk in tree[fw][ck] && pk in tree[fw][ck][tk] :: (fw, ck, tk, pk)
  }

  /** Only the trial's own path leads to its leaf: two trials of the sweep with the same path are the same trial. */
  lemma LeafPathInjective(wrkMax: int, fws: seq<string>, conns: seq<int>, times: seq<int>, pipes: seq<int>, u: TrialParams, v: TrialParams)
    requires u in Schedule(wrkMax, fws, conns, times, pipes) && v in Schedule(wrkMax, fws, conns, times, pipes)
    ensures LeafPath(u) == LeafPath(v) ==> u == v
  {
    ScheduleMember(wrkMax, fws, conns, times, pipes, u);
    ScheduleMember(wrkMax, fws, conns, times, pipes, v);
    KeysInjective(u.connections, v.connections);
    KeysInjective(u.processingTimeMs, v.processingTimeMs);
    KeysInjective(u.pipeline, v.pipeline);
  }

  /** Every leaf path is made of one entry of each list. */
  lemma LeafTuple<R>(trial: TrialParams -> R, wrkMax: int, fws: seq<string>, conns: seq<int>, times: seq<int>, pipes: seq<int>,
                     path: (string, string, string, string))
    returns (a: nat, b: nat, c: nat, d: nat)
    requires path in LeafPaths(SweepTree(trial, wrkMax, fws, conns, times, pipes))
    ensures a < |fws| && b < |conns| && c < |times| && d < |pipes|
    ensures path == (fws[a], ConnKey(conns[b]), TimeKey(times[c]), PipeKey(pipes[d]))
  {
    var (fw, ck, tk, pk) := path;
    KeyFunctionsInjective();
    var tree := SweepTree(trial, wrkMax, fws, conns, times, pipes);
    TabulateKeys(fws, FrameworkKey, FrameworkValue(trial, wrkMax, conns, times, pipes));
    a :| 0 <= a < |fws| && FrameworkKey(fws[a]) == fw;
    TabulateLookup(fws, FrameworkKey, FrameworkValue(trial, wrkMax, conns, times, pipes), a);
    assert tree[fw] == ConnTable(trial, wrkMax, fw, conns, times, pipes);
    TabulateKeys(conns, ConnKey, ConnValue(trial, wrkMax, fw, times, pipes));
    b :| 0 <= b < |conns| && ConnKey(conns[b]) == ck;
    var cn := conns[b];
    TabulateLookup(conns, ConnKey, ConnValue(trial, wrkMax, fw, times, pipes), b);
    assert tree[fw][ck] == TimeTable(trial, wrkMax, fw, cn, times, pipes);
    TabulateKeys(times, TimeKey, TimeValue(trial, wrkMax, fw, cn, pipes));
    c :| 0 <= c < |times| && TimeKey(times[c]) == tk;
    TabulateLookup(times, TimeKey, TimeValue(trial, wrkMax, fw, cn, pipes), c);
    assert tree[fw][ck][tk] == PipeTable(trial, fw, times[c], Threads(wrkMax, cn), cn, pipes);
    TabulateKeys(pipes, PipeKey, PipeValue(trial, fw, times[c], Threads(wrkMax, cn), cn));
    d :| 0 <= d < |pipes| && PipeKey(pipes[d]) == pk;
  }

  /** Every leaf is the path of some trial. */
  lemma LeafHasTrial<R>(trial: TrialParams -> R, wrkMax: int, fws: seq<string>, conns: seq<int>, times: seq<int>, pipes: seq<int>,
                        path: (string, string, string, string))
    requires path in LeafPaths(SweepTree(trial, wrkMax, fws, conns, times, pipes))
    ensures exists k :: 0 <= k < |Schedule(wrkMax, fws, conns, times, pipes)| && LeafPath(Schedule(wrkMax, fws, conns, times, pipes)[k]) == path
  {
    var a, b, c, d := LeafTuple(trial, wrkMax, fws, conns, times, pipes, path);
    TupleScheduled(wrkMax, fws, conns, times, pipes, a, b, c, d);
  }

  /** The path made of one entry of each list is the path of a scheduled trial. */
  lemma TupleScheduled(wrkMax: int, fws: seq<string>, conns: seq<int>, times: seq<int>, pipes: seq<int>, a: nat, b: nat, c: nat, d: nat)
    requires a < |fws| && b < |conns| && c < |times| && d < |pipes|
    ensures exists k ::
              && 0 <= k < |Schedule(wrkMax, fws, conns, times, pipes)|
              && LeafPath(Schedule(wrkMax, fws, conns, times, pipes)[k]) == (fws[a], ConnKey(conns[b]), TimeKey(times[c]), PipeKey(pipes[d]))
  {
    ScheduleAt(wrkMax, fws, conns, times, pipes, a, b, c, d);
    var k := Position(a, b, c, d, |conns|, |times|, |pipes|);
    assert LeafPath(Schedule(wrkMax, fws, conns, times, pipes)[k]) == (fws[a], ConnKey(conns[b]), TimeKey(times[c]), PipeKey(pipes[d]));
  }

  /** Every trial's path is a leaf. */
  lemma TrialHasLeaf<R>(trial: TrialParams -> R, wrkMax: int, fws: seq<string>, conns: seq<int>, times: seq<int>, pipes: seq<int>,
                        u: TrialParams)
    requires u in Schedule(wrkMax, fws, conns, times, pipes)
    ensures LeafPath(u) in LeafPaths(SweepTree(trial, wrkMax, fws, conns, times, pipes))
  {
    ScheduleMember(wrkMax, fws, conns, times, pipes, u);
    var a, b, c, d :| 0 <= a < |fws| && 0 <= b < |conns| && 0 <= c < |times| && 0 <= d < |pipes|
      && u == Params(wrkMax, fws[a], conns[b], times[c], pipes[d]);
    TreeLeaf(trial, wrkMax, fws, conns, times, pipes, a, b, c, d);
  }

  /** The leaves of the tree are exactly the paths of the trials run. */
  lemma LeavesAreSchedulePaths<R>(trial: TrialParams -> R, wrkMax: int, fws: seq<string>, conns: seq<int>, times: seq<int>, pipes: seq<int>)
    ensures LeafPaths(SweepTree(trial, wrkMax, fws, conns, times, pipes))
      == Image(Schedule(wrkMax, fws, conns, times, pipes), LeafPath)
  {
    var sched := Schedule(wrkMax, fws, conns, times, pipes);
    forall path | path in LeafPaths(SweepTree(trial, wrkMax, fws, conns, times, pipes))
      ensures exists k :: 0 <= k < |sched| && LeafPath(sched[k]) == path
    {
      LeafHasTrial(trial, wrkMax, fws, conns, times, pipes, path);
    }
    forall k | 0 <= k < |sched| ensures LeafPath(sched[k]) in LeafPaths(SweepTree(trial, wrkMax, fws, conns, times, pipes)) {
      TrialHasLeaf(trial, wrkMax, fws, conns, times, pipes, sched[k]);
    }
  }

  /** The values `g` takes on the elements of `s`. */
  function Image<T, U>(s: seq<T>, g: T -> U): set<U> {
    set k | 0 <= k < |s| :: g(s[k])
  }

  /** An image of a sequence whose elements map to pairwise different values has as many elements as the sequence. */
  lemma {:induction false} ImageSize<T, U>(s: seq<T>, g: T -> U)
    requires forall i, j :: 0 <= i < j < |s| ==> g(s[i]) != g(s[j])
    ensures |Image(s, g)| == |s|
  {
    if |s| > 0 {
      var init := s[..|s| - 1];
      assert forall k :: 0 <= k < |init| ==> init[k] == s[k];
      ImageSize(init, g);
      ImageSnoc(s, g);
    }
  }

  /** The image of a non-empty sequence is that of all but its last element, plus the last element's value, which is new when values are pairwise different. */
  lemma ImageSnoc<T, U>(s: seq<T>, g: T -> U)
    requires |s| > 0
    requires forall i, j :: 0 <= i < j < |s| ==> g(s[i]) != g(s[j])
    ensures Image(s, g) == Image(s[..|s| - 1], g) + {g(s[|s| - 1])}
    ensures g(s[|s| - 1]) !in Image(s[..|s| - 1], g)
  {
    var init := s[..|s| - 1];
    assert forall k :: 0 <= k < |init| ==> init[k] == s[k];
    forall y | y in Image(s, g) ensures y in Image(init, g) + {g(s[|s| - 1])} {
      var k :| 0 <= k < |s| && g(s[k]) == y;
      if k < |s| - 1 {
        assert g(init[k]) == y;
      }
    }
  }

  /** Without repeated list entries no two trials of the sweep share a path. */
  lemma SchedulePathsDistinct(wrkMax: int, fws: seq<string>, conns: seq<int>, times: seq<int>, pipes: seq<int>)
    requires Distinct(fws) && Distinct(conns) && Distinct(times) && Distinct(pipes)
    ensures |Image(Schedule(wrkMax, fws, conns, times, pipes), LeafPath)| == |Schedule(wrkMax, fws, conns, times, pipes)|
  {
    var sched := Schedule(wrkMax, fws, conns, times, pipes);
    ScheduleDistinct(wrkMax, fws, conns, times, pipes);
    forall i, j | 0 <= i < j < |sched| ensures LeafPath(sched[i]) != LeafPath(sched[j]) {
      LeafPathInjective(wrkMax, fws, conns, times, pipes, sched[i], sched[j]);
    }
    ImageSize(sched, LeafPath);
  }

  /** Without repeated list entries the tree has exactly `total_tests` leaves. */
  lemma LeafCount<R>(trial: TrialParams -> R, wrkMax: int, fws: seq<string>, conns: seq<int>, times: seq<int>, pipes: seq<int>)
    requires Distinct(fws) && Distinct(conns) && Distinct(times) && Distinct(pipes)
    ensures |LeafPaths(SweepTree(trial, wrkMax, fws, conns, times, pipes))| == |fws| * |conns| * |times| * |pipes|
  {
    LeavesAreSchedulePaths(trial, wrkMax, fws, conns, times, pipes);
    SchedulePathsDistinct(wrkMax, fws, conns, times, pipes);
    ScheduleLength(wrkMax, fws, conns, times, pipes);
  }
}

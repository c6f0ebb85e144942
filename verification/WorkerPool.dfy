/**
 * mapWithConcurrency (diff-service.ts 46-62) as an interleaved machine: workers
 * that share a counter and an array of results and are suspended in `fn`.
 */
module WorkerPool {
  import opened Common

  datatype Worker = Waiting | Busy(index: nat) | Done | Rejected(index: nat)

  // `claims` records the order in which the indices were taken.
  datatype Pool<R> = Pool(next: nat, results: seq<Option<R>>, workers: seq<Worker>, claims: seq<nat>)

  datatype Label = Launch(worker: nat) | Answer(worker: nat, ok: bool)

  function Start<R>(n: nat, concurrency: int): Pool<R> {
    var count := if concurrency < n then if concurrency < 0 then 0 else concurrency else n;
    Pool(0, seq(n, _ => None), seq(count, _ => Waiting), [])
  }

  // The head of a worker's loop: take the next index or stop.
  function TakeNext<R>(p: Pool<R>, w: nat): Pool<R>
    requires w < |p.workers|
  {
    if p.next < |p.results| then
      p.(next := p.next + 1, workers := p.workers[w := Busy(p.next)], claims := p.claims + [p.next])
    else p.(workers := p.workers[w := Done])
  }

  predicate Enabled<R>(p: Pool<R>, l: Label) {
    l.worker < |p.workers| && (if l.Launch? then p.workers[l.worker].Waiting? else p.workers[l.worker].Busy?)
      && (l.Answer? ==> p.workers[l.worker].index < |p.results|)
  }

  // A worker starts, or fn answered: the result is stored and the loop goes on.
  function Apply<T, R>(items: seq<T>, fn: T -> R, p: Pool<R>, l: Label): Pool<R>
    requires Enabled(p, l) && |p.results| == |items|
  {
    if l.Launch? then TakeNext(p, l.worker)
    else
      var i := p.workers[l.worker].index;
      if !l.ok then p.(workers := p.workers[l.worker := Rejected(i)])
      else TakeNext(p.(results := p.results[i := Some(fn(items[i]))]), l.worker)
  }

  // A worker that holds an index is suspended in fn, or fn rejected.
  predicate Holding(w: Worker) { w.Busy? || w.Rejected? }

  predicate Holds(w: Worker, i: nat) { Holding(w) && w.index == i }

  /**
   * Every index below `next` was claimed once, in order, and has its own result
   * or is held by exactly one worker; the others are untouched.
   */
  ghost predicate Inv<T, R>(items: seq<T>, fn: T -> R, p: Pool<R>) {
    && |p.results| == |items| && p.next <= |items|
    && p.claims == seq(p.next, i => i)
    && (forall i | 0 <= i < |items| && p.results[i].Some? :: i < p.next && p.results[i].value == fn(items[i]))
    && (forall i | 0 <= i < p.next && p.results[i].None? :: exists w :: 0 <= w < |p.workers| && Holds(p.workers[w], i))
    && (forall w | 0 <= w < |p.workers| && Holding(p.workers[w]) ::
          p.workers[w].index < p.next && p.results[p.workers[w].index].None?)
    && (forall v, w | 0 <= v < w < |p.workers| && Holding(p.workers[v]) && Holding(p.workers[w]) ::
          p.workers[v].index != p.workers[w].index)
    && (forall w | 0 <= w < |p.workers| && p.workers[w].Done? :: p.next == |items|)
  }

  lemma StartInv<T, R>(items: seq<T>, fn: T -> R, concurrency: int)
    ensures Inv(items, fn, Start(|items|, concurrency))
  {
  }

  // A worker that holds nothing goes round its loop.
  lemma LoopKeeps<T, R>(items: seq<T>, fn: T -> R, p: Pool<R>, w: nat)
    requires Inv(items, fn, p) && w < |p.workers| && !Holding(p.workers[w])
    ensures Inv(items, fn, TakeNext(p, w))
  {
    var p' := TakeNext(p, w);
    forall i | 0 <= i < p'.next && p'.results[i].None? ensures exists v :: 0 <= v < |p'.workers| && Holds(p'.workers[v], i) {
      if i < p.next {
        var v :| 0 <= v < |p.workers| && Holds(p.workers[v], i);
        assert Holds(p'.workers[v], i);
      } else {
        assert Holds(p'.workers[w], i);
      }
    }
  }

  // The result is stored; for a moment the worker holds nothing.
  lemma StoreKeeps<T, R>(items: seq<T>, fn: T -> R, p: Pool<R>, w: nat)
    requires Inv(items, fn, p) && w < |p.workers| && p.workers[w].Busy?
    ensures var i := p.workers[w].index;
      i < |items| && Inv(items, fn, p.(results := p.results[i := Some(fn(items[i]))], workers := p.workers[w := Waiting]))
  {
    var i := p.workers[w].index;
    var p' := p.(results := p.results[i := Some(fn(items[i]))], workers := p.workers[w := Waiting]);
    forall j | 0 <= j < p'.next && p'.results[j].None? ensures exists v :: 0 <= v < |p'.workers| && Holds(p'.workers[v], j) {
      var v :| 0 <= v < |p.workers| && Holds(p.workers[v], j);
      assert Holds(p'.workers[v], j);
    }
  }

  lemma RejectKeeps<T, R>(items: seq<T>, fn: T -> R, p: Pool<R>, w: nat)
    requires Inv(items, fn, p) && w < |p.workers| && p.workers[w].Busy?
    ensures Inv(items, fn, p.(workers := p.workers[w := Rejected(p.workers[w].index)]))
  {
    var p' := p.(workers := p.workers[w := Rejected(p.workers[w].index)]);
    forall j | 0 <= j < p'.next && p'.results[j].None? ensures exists v :: 0 <= v < |p'.workers| && Holds(p'.workers[v], j) {
      var v :| 0 <= v < |p.workers| && Holds(p.workers[v], j);
      assert Holds(p'.workers[v], j);
    }
  }

  lemma StepKeeps<T, R>(items: seq<T>, fn: T -> R, p: Pool<R>, l: Label)
    requires Inv(items, fn, p) && Enabled(p, l)
    ensures Inv(items, fn, Apply(items, fn, p, l)) && |Apply(items, fn, p, l).workers| == |p.workers|
  {
    var w := l.worker;
    if l.Launch? {
      LoopKeeps(items, fn, p, w);
    } else if l.ok {
      StoreKeeps(items, fn, p, w);
      var i := p.workers[w].index;
      var p1 := p.(results := p.results[i := Some(fn(items[i]))], workers := p.workers[w := Waiting]);
      LoopKeeps(items, fn, p1, w);
      assert p1.workers[w := Busy(p.next)] == p.workers[w := Busy(p.next)] && p1.workers[w := Done] == p.workers[w := Done];
      hide Inv;
      assert TakeNext(p1, w) == Apply(items, fn, p, l);
    } else {
      RejectKeeps(items, fn, p, w);
    }
  }

  ghost predicate IsRun<T, R>(items: seq<T>, fn: T -> R, p: Pool<R>, trace: seq<Label>)
    requires |p.results| == |items|
    decreases |trace|
  {
    trace == [] || (Enabled(p, trace[0]) && IsRun(items, fn, Apply(items, fn, p, trace[0]), trace[1..]))
  }

  ghost function After<T, R>(items: seq<T>, fn: T -> R, p: Pool<R>, trace: seq<Label>): Pool<R>
    requires |p.results| == |items| && IsRun(items, fn, p, trace)
    decreases |trace|
  {
    if trace == [] then p else After(items, fn, Apply(items, fn, p, trace[0]), trace[1..])
  }

  predicate AllDone<R>(p: Pool<R>) { forall w | 0 <= w < |p.workers| :: p.workers[w].Done? }

  predicate Mapped<T, R(==)>(items: seq<T>, fn: T -> R, results: seq<Option<R>>) {
    |results| == |items| && forall i | 0 <= i < |items| :: results[i] == Some(fn(items[i]))
  }

  /** Every interleaving of the workers keeps the bookkeeping. */
  lemma {:induction false} EveryScheduleKeeps<T, R>(items: seq<T>, fn: T -> R, p: Pool<R>, trace: seq<Label>)
    requires Inv(items, fn, p) && IsRun(items, fn, p, trace)
    ensures Inv(items, fn, After(items, fn, p, trace))
    ensures |After(items, fn, p, trace).workers| == |p.workers|
    decreases |trace|
  {
    if trace != [] {
      StepKeeps(items, fn, p, trace[0]);
      EveryScheduleKeeps(items, fn, Apply(items, fn, p, trace[0]), trace[1..]);
    }
  }

  /**
   * On completion, in whatever order the calls were answered, every item has its
   * own result, exactly when there was a worker at all: with no concurrency a
   * non-empty list completes at once without results.
   */
  lemma CompletesIff<T, R>(items: seq<T>, fn: T -> R, concurrency: int, trace: seq<Label>)
    requires IsRun(items, fn, Start(|items|, concurrency), trace)
    requires AllDone(After(items, fn, Start(|items|, concurrency), trace))
    ensures Mapped(items, fn, After(items, fn, Start(|items|, concurrency), trace).results)
        <==> concurrency >= 1 || items == []
  {
    var p := After(items, fn, Start<R>(|items|, concurrency), trace);
    StartInv(items, fn, concurrency);
    EveryScheduleKeeps(items, fn, Start(|items|, concurrency), trace);
    hide After, IsRun;
    if |p.workers| > 0 {
      assert p.workers[0].Done?;
    } else if items != [] {
      assert concurrency < 1;
      NoWorkerNoStep(items, fn, concurrency, trace);
      NoSteps(items, fn, concurrency, trace);
      assert p.results[0].None?;
    }
  }

  lemma NoSteps<T, R>(items: seq<T>, fn: T -> R, concurrency: int, trace: seq<Label>)
    requires IsRun(items, fn, Start(|items|, concurrency), trace) && trace == []
    ensures After(items, fn, Start(|items|, concurrency), trace) == Start(|items|, concurrency)
  {
  }

  lemma NoWorkerNoStep<T, R>(items: seq<T>, fn: T -> R, concurrency: int, trace: seq<Label>)
    requires items != [] && concurrency < 1 && IsRun(items, fn, Start<R>(|items|, concurrency), trace)
    ensures trace == []
  {
    assert |Start<R>(|items|, concurrency).workers| == 0;
  }

  /** Never more calls in flight than allowed. */
  lemma InFlightIsBounded<T, R>(items: seq<T>, fn: T -> R, concurrency: int, trace: seq<Label>)
    requires concurrency >= 0 && IsRun(items, fn, Start(|items|, concurrency), trace)
    ensures |InFlight(After(items, fn, Start(|items|, concurrency), trace))| <= concurrency
  {
    var p := After(items, fn, Start<R>(|items|, concurrency), trace);
    StartInv(items, fn, concurrency);
    EveryScheduleKeeps(items, fn, Start(|items|, concurrency), trace);
    hide After, IsRun, Inv;
    assert InFlight(p) <= Below(|p.workers|);
    SmallerSet(InFlight(p), Below(|p.workers|));
  }

  function InFlight<R>(p: Pool<R>): set<nat> { set w | 0 <= w < |p.workers| && p.workers[w].Busy? }

  function Below(n: nat): (s: set<nat>)
    ensures |s| == n && forall w: nat :: w in s <==> w < n
  {
    if n == 0 then {} else Below(n - 1) + {n - 1}
  }

  /** The closure's own form: a counter and an array that the workers share. */
  class MapRun<T, R> {
    const items: seq<T>
    const fn: T -> R
    var next: nat
    var results: array<Option<R>>
    var workers: seq<Worker>
    ghost var claims: seq<nat>

    constructor (items: seq<T>, concurrency: int, fn: T -> R)
      ensures this.items == items && this.fn == fn && fresh(results)
      ensures View() == Start(|items|, concurrency)
    {
      this.items, this.fn := items, fn;
      next := 0;
      results := new Option<R>[|items|](_ => None);
      var count := if concurrency < |items| then if concurrency < 0 then 0 else concurrency else |items|;
      workers := seq(count, _ => Waiting);
      claims := [];
      new;
      assert results[..] == seq(|items|, _ => None);
    }

    ghost function View(): Pool<R>
      reads this, results
    {
      Pool(next, results[..], workers, claims)
    }

    method Loop(w: nat)
      requires w < |workers|
      modifies this`next, this`workers, this`claims
      ensures View() == TakeNext(old(View()), w)
    {
      if next < results.Length {
        var index := next;
        next := next + 1;
        claims := claims + [index];
        workers := workers[w := Busy(index)];
      } else {
        workers := workers[w := Done];
      }
    }

    method Launch(w: nat)
      requires results.Length == |items| && Enabled(View(), Label.Launch(w))
      modifies this`next, this`workers, this`claims
      ensures View() == Apply(items, fn, old(View()), Label.Launch(w))
    {
      Loop(w);
    }

    method Answer(w: nat, ok: bool)
      requires results.Length == |items| && Enabled(View(), Label.Answer(w, ok))
      modifies this`next, this`workers, this`claims, results
      ensures View() == Apply(items, fn, old(View()), Label.Answer(w, ok)) && results == old(results)
    {
      var index := workers[w].index;
      if !ok {
        workers := workers[w := Rejected(index)];
        return;
      }
      results[index] := Some(fn(items[index]));
      assert results[..] == old(results[..])[index := Some(fn(items[index]))];
      Loop(w);
    }
  }
}

/** Runs of a transition system: what every action keeps holds at the end of every run, a measure
    that every action lowers bounds them, and until nothing can happen any more they go on.

    A system is given by its initial states and by the state an action leads to, if it is possible. */
module Runs {
  import opened IntSeqs
  import opened Options

  ghost predicate Next<S(!new), A(!new)>(apply: (S, A) -> Option<S>, st: S, st': S) {
    exists a :: apply(st, a) == Some(st')
  }

  ghost predicate CanStep<S(!new), A(!new)>(apply: (S, A) -> Option<S>, st: S) {
    exists a :: apply(st, a).Some?
  }

  ghost predicate IsRun<S(!new), A(!new)>(init: S -> bool, apply: (S, A) -> Option<S>, tr: seq<S>) {
    && tr != []
    && init(tr[0])
    && forall i :: 0 <= i < |tr| - 1 ==> Next(apply, tr[i], tr[i + 1])
  }

  /** inv holds initially and every action keeps it. */
  ghost predicate Invariant<S(!new), A(!new)>(init: S -> bool, apply: (S, A) -> Option<S>, inv: S -> bool) {
    && (forall st :: init(st) ==> inv(st))
    && forall st, a :: inv(st) && apply(st, a).Some? ==> inv(apply(st, a).value)
  }

  /** Every action lowers the work, which is never negative. */
  ghost predicate Shrinks<S(!new), A(!new)>(apply: (S, A) -> Option<S>, inv: S -> bool, work: S -> int) {
    && (forall st :: inv(st) ==> work(st) >= 0)
    && forall st, a :: inv(st) && apply(st, a).Some? ==> work(apply(st, a).value) < work(st)
  }

  lemma ShorterRun<S(!new), A(!new)>(init: S -> bool, apply: (S, A) -> Option<S>, tr: seq<S>)
    requires IsRun(init, apply, tr) && |tr| > 1
    ensures IsRun(init, apply, tr[..|tr| - 1]) && Next(apply, tr[|tr| - 2], tr[|tr| - 1])
  {
    var head := tr[..|tr| - 1];
    forall i | 0 <= i < |head| - 1
      ensures Next(apply, head[i], head[i + 1])
    {
      assert Next(apply, tr[i], tr[i + 1]);
    }
    assert Next(apply, tr[|tr| - 2], tr[|tr| - 2 + 1]);
  }

  lemma {:induction false} RunKeeps<S(!new), A(!new)>(init: S -> bool, apply: (S, A) -> Option<S>, inv: S -> bool,
                                                      tr: seq<S>)
    requires IsRun(init, apply, tr) && Invariant(init, apply, inv)
    ensures inv(tr[|tr| - 1])
  {
    if |tr| > 1 {
      ShorterRun(init, apply, tr);
      RunKeeps(init, apply, inv, tr[..|tr| - 1]);
      var a :| apply(tr[|tr| - 2], a) == Some(tr[|tr| - 1]);
      assert inv(tr[|tr| - 2]);
    }
  }

  /** A run has no more steps than the work its first state leaves to do. */
  lemma {:induction false} RunSpends<S(!new), A(!new)>(init: S -> bool, apply: (S, A) -> Option<S>, inv: S -> bool,
                                                       work: S -> int, tr: seq<S>)
    requires IsRun(init, apply, tr) && Invariant(init, apply, inv) && Shrinks(apply, inv, work)
    ensures work(tr[|tr| - 1]) + |tr| - 1 <= work(tr[0])
    ensures |tr| - 1 <= work(tr[0])
  {
    RunKeeps(init, apply, inv, tr);
    if |tr| > 1 {
      ShorterRun(init, apply, tr);
      RunSpends(init, apply, inv, work, tr[..|tr| - 1]);
      RunKeeps(init, apply, inv, tr[..|tr| - 1]);
      var a :| apply(tr[|tr| - 2], a) == Some(tr[|tr| - 1]);
      assert inv(tr[|tr| - 2]);
    }
  }

  lemma LongerRun<S(!new), A(!new)>(init: S -> bool, apply: (S, A) -> Option<S>, tr: seq<S>, a: A)
    requires IsRun(init, apply, tr) && apply(tr[|tr| - 1], a).Some?
    ensures IsRun(init, apply, tr + [apply(tr[|tr| - 1], a).value])
  {
    var st' := apply(tr[|tr| - 1], a).value;
    assert Next(apply, tr[|tr| - 1], st');
  }

  /** A run that can go on does so until it cannot. */
  lemma {:induction false} RunCanFinish<S(!new), A(!new)>(init: S -> bool, apply: (S, A) -> Option<S>, inv: S -> bool,
                                                          work: S -> int, tr: seq<S>)
    returns (whole: seq<S>)
    requires IsRun(init, apply, tr) && Invariant(init, apply, inv) && Shrinks(apply, inv, work)
    ensures IsRun(init, apply, whole) && tr <= whole && !CanStep(apply, whole[|whole| - 1])
    decreases work(tr[0]) + 1 - |tr|
  {
    RunSpends(init, apply, inv, work, tr);
    if CanStep(apply, tr[|tr| - 1]) {
      var a :| apply(tr[|tr| - 1], a).Some?;
      var more := tr + [apply(tr[|tr| - 1], a).value];
      LongerRun(init, apply, tr, a);
      RunSpends(init, apply, inv, work, more);
      whole := RunCanFinish(init, apply, inv, work, more);
    } else {
      whole := tr;
    }
  }

  // --------------------------------------------------------------------------
  // Work that is the sum of what each rank has left to do
  // --------------------------------------------------------------------------

  ghost function Works<R>(work: (nat, R) -> int, st: seq<R>): (ws: seq<int>)
    ensures |ws| == |st|
  {
    seq(|st|, r requires 0 <= r < |st| => work(r, st[r]))
  }

  ghost function Total<R>(work: (nat, R) -> int, st: seq<R>): int {
    Sum(Works(work, st))
  }

  /** One rank does some work; nobody else's remaining work changes. */
  lemma TotalShrinks<R>(work: (nat, R) -> int, st: seq<R>, st': seq<R>, r: nat)
    requires |st| == |st'| && r < |st| && work(r, st'[r]) < work(r, st[r])
    requires forall q: nat :: q < |st| && q != r ==> work(q, st'[q]) == work(q, st[q])
    ensures Total(work, st') < Total(work, st)
  {
    assert Works(work, st') == Works(work, st)[r := work(r, st'[r])];
    SumUpdate(Works(work, st), r, work(r, st'[r]));
  }

  lemma TotalNonNegative<R>(work: (nat, R) -> int, st: seq<R>)
    requires forall r: nat :: r < |st| ==> work(r, st[r]) >= 0
    ensures Total(work, st) >= 0
  {
    SumNonNegative(Works(work, st));
  }

  /** One rank that has first to do, and others that have each the same. */
  lemma TotalOfEqual<R>(work: (nat, R) -> int, st: seq<R>, first: int, each: int)
    requires st != [] && work(0, st[0]) == first
    requires forall r: nat :: 0 < r < |st| ==> work(r, st[r]) == each
    ensures Total(work, st) == first + (|st| - 1) * each
  {
    var ws := Works(work, st);
    SumSplit(ws, 0);
    SumOfEqual(ws[1..], each);
  }
}

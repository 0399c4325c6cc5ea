/** What the thread index and the thread-specific storage guarantee in every run. */
module ThreadIndexRuns {
  import opened Common
  import opened ThreadIndex

  // ----- every run --------------------------------------------------------

  ghost predicate Inv(c: Config, s: State) {
    OnceOnly(c, s) && Counts(c, s) && Stored(c, s)
  }

  lemma InitInv(c: Config, s: State)
    requires Init(c, s)
    ensures Inv(c, s)
  {
  }

  lemma NextKept(c: Config, s: State, s': State)
    requires Next(c, s, s')
    ensures Inv(c, s) ==> Inv(c, s')
  {
    var t, x, v, request :| Step(c, s, s', t, x, v, request);
    if Inv(c, s) {
      OnceKept(c, s, s', t, x, v, request);
      CountsKept(c, s, s', t, x, v, request);
      StoredKept(c, s, s', t, x, v, request);
    }
  }

  /** The first `n` states of a run satisfy the invariants. */
  ghost predicate SafeUpTo(c: Config, run: seq<State>, n: nat)
    requires n <= |run|
  {
    n > 0 ==> SafeUpTo(c, run, n - 1) && Inv(c, run[n - 1])
  }

  lemma {:induction false} RunSafe(c: Config, run: seq<State>, i: nat)
    requires IsRun(c, run) && i < |run|
    ensures SafeUpTo(c, run, i + 1)
  {
    if i == 0 {
      InitInv(c, run[0]);
    } else {
      RunSafe(c, run, i - 1);
      assert StepAt(c, run, i);
      NextKept(c, run[i - 1], run[i]);
    }
  }

  /** Each lazy initialisation runs at most once, and has run before any thread draws
      an index or compares one. */
  lemma InitialisedOnce(c: Config, run: seq<State>, i: nat, t: nat)
    requires IsRun(c, run) && i < |run|
    ensures run[i].counterRuns <= 1 && run[i].maxRuns <= 1
    ensures t in run[i].threads && PastCounter(run[i].threads[t]) ==> run[i].counterRuns == 1
    ensures t in run[i].threads && PastMaximum(run[i].threads[t]) ==> run[i].maxRuns == 1 && run[i].max == c.max
  {
    RunSafe(c, run, i);
    if t in run[i].threads {
      assert OnceOk(run[i].counterFlag, run[i].counterRunner, run[i].maxFlag, run[i].maxRunner, t, run[i].threads[t]);
    }
  }

  /** Threads hold different indices below the maximum. */
  lemma IndicesDistinct(c: Config, run: seq<State>, i: nat, t: nat, u: nat)
    requires IsRun(c, run) && i < |run| && t in run[i].vars && u in run[i].vars && t != u
    requires run[i].vars[t].Some? && run[i].vars[u].Some?
    ensures run[i].vars[t].value < c.max && run[i].vars[t] != run[i].vars[u]
  {
    RunSafe(c, run, i);
    var s := run[i];
    assert DrawOk(c.max, s.winners, s.losers, t, s.threads[t], s.vars[t])
           && DrawOk(c.max, s.winners, s.losers, u, s.threads[u], s.vars[u]);
  }

  /** While no request is under way, the indices held are exactly 0 to S - 1 for some
      S, whatever increments and undos there have been; each is held by one thread. */
  lemma IndicesDense(c: Config, run: seq<State>, i: nat)
    requires IsRun(c, run) && i < |run| && forall t :: t in run[i].threads ==> run[i].threads[t].Idle?
    ensures forall t :: t in run[i].vars && run[i].vars[t].Some? ==> run[i].vars[t].value < |run[i].winners|
    ensures forall k :: 0 <= k < |run[i].winners| ==>
              run[i].winners[k] in run[i].vars && run[i].vars[run[i].winners[k]] == Some(k)
    ensures run[i].counterFlag == 2 ==> run[i].counter == |run[i].winners|
  {
    RunSafe(c, run, i);
    Quiescent(c, run[i]);
  }

  lemma Quiescent(c: Config, s: State)
    requires Counts(c, s) && forall t :: t in s.threads ==> s.threads[t].Idle?
    ensures forall t :: t in s.vars && s.vars[t].Some? ==> s.vars[t].value < |s.winners|
    ensures forall k :: 0 <= k < |s.winners| ==> s.winners[k] in s.vars && s.vars[s.winners[k]] == Some(k)
    ensures s.losers == {}
  {
    forall t | t in s.threads ensures DrawOk(c.max, s.winners, s.losers, t, Idle, s.vars[t]) {
      assert DrawOk(c.max, s.winners, s.losers, t, s.threads[t], s.vars[t]);
    }
    forall k | 0 <= k < |s.winners| ensures s.winners[k] in s.vars && s.vars[s.winners[k]] == Some(k) {
      var w := s.winners[k];
      assert w in s.winners && DrawOk(c.max, s.winners, s.losers, w, Idle, s.vars[w]);
    }
    forall t ensures t !in s.losers {
      if t in s.threads { assert DrawOk(c.max, s.winners, s.losers, t, s.threads[t], s.vars[t]); }
    }
  }

  /** A request is refused only when all indices have been drawn. */
  lemma RefusedWhenFull(c: Config, run: seq<State>, i: nat, t: nat)
    requires IsRun(c, run) && i < |run| && t in run[i].threads && run[i].threads[t].Undo?
    ensures |run[i].winners| == c.max && Distinct(run[i].winners)
  {
    RunSafe(c, run, i);
    assert DrawOk(c.max, run[i].winners, run[i].losers, t, run[i].threads[t], run[i].vars[t]);
  }

  /** What thread `t` reads from storage `x`. */
  function Lookup(s: State, t: nat, x: nat): Option<nat> {
    if t in s.vars && s.vars[t].Some? && x in s.values && s.vars[t].value < |s.values[x]|
    then s.values[x][s.vars[t].value] else None
  }

  /** A thread reads its own last value, or nothing if it has set none. */
  lemma OwnValue(c: Config, s: State, t: nat, x: nat)
    requires Inv(c, s)
    ensures Lookup(s, t, x) == if (t, x) in s.last then Some(s.last[(t, x)]) else None
    ensures x < c.workers && Lookup(s, t, x).Some? ==> t == x && Lookup(s, t, x) == Some(x)
  {
    if t in s.vars && s.vars[t].Some? && x in s.values {
      assert DrawOk(c.max, s.winners, s.losers, t, s.threads[t], s.vars[t]);
      assert SlotOk(c.workers, s.winners, s.last, x, s.vars[t].value, s.values[x][s.vars[t].value]);
    }
  }

  lemma LastMoves(c: Config, s: State, s': State, p: (nat, nat))
    requires Next(c, s, s') && p in s.last
    ensures p in s'.last
  {
  }

  /** What has been set stays set. */
  lemma {:induction false} LastStays(c: Config, run: seq<State>, i: nat, k: nat, p: (nat, nat))
    requires IsRun(c, run) && i <= k < |run| && p in run[i].last
    ensures p in run[k].last
  {
    if i < k {
      LastStays(c, run, i, k - 1, p);
      assert StepAt(c, run, k);
      LastMoves(c, run[k - 1], run[k], p);
    }
  }

  /** What thread `t` finds where worker `w` stores its context. */
  lemma LookupAt(c: Config, run: seq<State>, i: nat, t: nat, w: nat)
    requires IsRun(c, run) && i < |run| && w < c.workers
    ensures Lookup(run[i], t, w) == if t == w && (t, t) in run[i].last then Some(t) else None
  {
    RunSafe(c, run, i);
    OwnValue(c, run[i], t, w);
  }

  /** Storage `ii` is read in state `times[ii]`; between two reads other threads go on. */
  predicate AreTimes(times: seq<nat>, workers: nat, n: nat) {
    |times| == workers && forall i :: 0 <= i < |times| ==> times[i] < n
  }

  /** The search for the context of the calling thread: a worker that has stored its
      context gets that context, and every other thread gets none. */
  method CurrentContext(c: Config, run: seq<State>, times: seq<nat>, t: nat) returns (context: Option<nat>)
    requires IsRun(c, run) && AreTimes(times, c.workers, |run|)
    ensures context == if t < c.workers && (t, t) in run[times[t]].last then Some(t) else None
  {
    context := None;
    var ii := 0;
    while ii < c.workers && context.None?
      invariant ii <= c.workers
      invariant context.Some? ==> context == Some(t) && t < ii && (t, t) in run[times[t]].last
      invariant context.None? ==> forall w :: 0 <= w < ii ==> Lookup(run[times[w]], t, w).None?
    {
      context := Lookup(run[times[ii]], t, ii);
      LookupAt(c, run, times[ii], t, ii);
      ii := ii + 1;
    }
    if t < c.workers { LookupAt(c, run, times[t], t, t); }
  }

  /** A worker that had stored its context when the search began finds it, whatever
      happens during the search. */
  method OwnContext(c: Config, run: seq<State>, times: seq<nat>, t: nat, begin: nat) returns (context: Option<nat>)
    requires IsRun(c, run) && AreTimes(times, c.workers, |run|) && t < c.workers
    requires begin <= times[t] && (t, t) in run[begin].last
    ensures context == Some(t)
  {
    LastStays(c, run, begin, times[t], (t, t));
    context := CurrentContext(c, run, times, t);
  }
}

/** Thread indices and thread-specific storage. Threads obtain a small index from a
    shared counter that is initialised lazily by whoever comes first; a thread that
    comes too late undoes its increment. A step is one atomic operation or one
    access to a shared variable. */
module ThreadIndex {
  import opened Common

  /** The number of indices, and the number of workers of the scheduler: worker `w`
      is thread `w` and its context is stored in thread-specific storage `w`. */
  datatype Config = Config(max: nat, workers: nat)

  /** Once-only initialisation of a variable, and what follows it. */
  datatype Once = Load | Swap | Run | Store | Wait

  datatype Pc =
    | Idle
    | Counter(once: Once)                     // embb_thread_index_counter
    | Increment
    | Maximum(once: Once, drawn: Option<nat>) // embb_max_number_thread_indices
    | Compare(index: nat)
    | Undo(index: nat)
    | Grant(index: nat)

  datatype State = State(
    counterFlag: nat,
    counter: nat,
    maxFlag: nat,
    max: nat,
    vars: map<nat, Option<nat>>,              // the thread-local index, none if unset
    values: map<nat, seq<Option<nat>>>,       // thread-specific storages
    threads: map<nat, Pc>,
    // history
    counterRunner: Option<nat>,               // who won the counter's initialisation
    maxRunner: Option<nat>,
    counterRuns: nat,                         // how often the initialisations ran
    maxRuns: nat,
    winners: seq<nat>,                        // threads in the order of the indices they drew
    losers: set<nat>,                         // threads that drew an index beyond the maximum
    last: map<(nat, nat), nat>)               // per thread and storage: the value last set

  ghost predicate Init(c: Config, s: State) {
    && s.counterFlag == 0 && s.maxFlag == 0
    && |s.threads| < UINT_RANGE && s.vars.Keys == s.threads.Keys
    && (forall t :: t in s.threads ==> s.threads[t].Idle?) && (forall t :: t in s.vars ==> s.vars[t].None?)
    && s.values == map[] && s.last == map[]
    && s.counterRunner == None && s.maxRunner == None && s.counterRuns == 0 && s.maxRuns == 0
    && s.winners == [] && s.losers == {}
  }

  // ----- steps ------------------------------------------------------------

  predicate At(s: State, t: nat) {
    t in s.threads && t in s.vars
  }

  /** A thread without an index asks for one, or any thread asks for the maximum. */
  ghost predicate CallStep(s: State, s': State, t: nat, request: bool) {
    At(s, t) && s.threads[t].Idle? && (request ==> s.vars[t].None?) &&
    s' == s.(threads := s.threads[t := if request then Counter(Load) else Maximum(Load, None)])
  }

  ghost predicate CounterStep(s: State, s': State, t: nat) {
    At(s, t) && s.threads[t].Counter? &&
    match s.threads[t].once
    case Load => s' == s.(threads := s.threads[t := if s.counterFlag == 2 then Increment else Counter(Swap)])
    case Swap =>
      if s.counterFlag == 0
      then s' == s.(counterFlag := 1, counterRunner := Some(t), threads := s.threads[t := Counter(Run)])
      else s' == s.(threads := s.threads[t := Counter(Wait)])
    case Run => s' == s.(counter := 0, counterRuns := s.counterRuns + 1, threads := s.threads[t := Counter(Store)])
    case Store => s' == s.(counterFlag := 2, counterRunner := None, threads := s.threads[t := Counter(Wait)])
    case Wait => s' == s.(threads := s.threads[t := if s.counterFlag == 2 then Increment else Counter(Wait)])
  }

  ghost predicate IncrementStep(c: Config, s: State, s': State, t: nat) {
    At(s, t) && s.threads[t].Increment? &&
    s' == s.(counter := (s.counter + 1) % UINT_RANGE,
             threads := s.threads[t := Maximum(Load, Some(s.counter))],
             winners := if s.counter < c.max then s.winners + [t] else s.winners,
             losers := if s.counter < c.max then s.losers else s.losers + {t})
  }

  /** What follows once the maximum is known. */
  function AfterMaximum(index: Option<nat>): Pc {
    if index.Some? then Compare(index.value) else Idle
  }

  ghost predicate MaximumStep(c: Config, s: State, s': State, t: nat) {
    At(s, t) && s.threads[t].Maximum? &&
    var index := s.threads[t].drawn;
    match s.threads[t].once
    case Load => s' == s.(threads := s.threads[t := if s.maxFlag == 2 then AfterMaximum(index)
                                               else Maximum(Swap, index)])
    case Swap =>
      if s.maxFlag == 0
      then s' == s.(maxFlag := 1, maxRunner := Some(t), threads := s.threads[t := Maximum(Run, index)])
      else s' == s.(threads := s.threads[t := Maximum(Wait, index)])
    case Run => s' == s.(max := c.max, maxRuns := s.maxRuns + 1, threads := s.threads[t := Maximum(Store, index)])
    case Store => s' == s.(maxFlag := 2, maxRunner := None, threads := s.threads[t := Maximum(Wait, index)])
    case Wait => s' == s.(threads := s.threads[t := if s.maxFlag == 2 then AfterMaximum(index)
                                               else Maximum(Wait, index)])
  }

  ghost predicate CompareStep(s: State, s': State, t: nat) {
    At(s, t) && s.threads[t].Compare? &&
    var index := s.threads[t].index;
    s' == s.(threads := s.threads[t := if index >= s.max then Undo(index) else Grant(index)])
  }

  ghost predicate UndoStep(s: State, s': State, t: nat) {
    At(s, t) && s.threads[t].Undo? &&
    s' == s.(counter := (s.counter + UINT_RANGE - 1) % UINT_RANGE, losers := s.losers - {t},
             threads := s.threads[t := Idle])
  }

  ghost predicate GrantStep(s: State, s': State, t: nat) {
    At(s, t) && s.threads[t].Grant? &&
    s' == s.(vars := s.vars[t := Some(s.threads[t].index)], threads := s.threads[t := Idle])
  }

  /** A storage is created with all slots empty. */
  ghost predicate CreateStep(c: Config, s: State, s': State, x: nat) {
    x !in s.values && s' == s.(values := s.values[x := seq(c.max, _ => None)])
  }

  /** Thread `t` sets its slot; the contexts of workers are set by the workers. */
  ghost predicate SetStep(c: Config, s: State, s': State, t: nat, x: nat, v: nat) {
    At(s, t) && s.threads[t].Idle? && x in s.values && s.vars[t].Some? && s.vars[t].value < |s.values[x]| &&
    (x < c.workers ==> t == x && v == x) &&
    s' == s.(values := s.values[x := s.values[x][s.vars[t].value := Some(v)]], last := s.last[(t, x) := v])
  }

  ghost predicate Step(c: Config, s: State, s': State, t: nat, x: nat, v: nat, request: bool) {
    || CallStep(s, s', t, request) || CounterStep(s, s', t) || IncrementStep(c, s, s', t) || MaximumStep(c, s, s', t)
    || CompareStep(s, s', t) || UndoStep(s, s', t) || GrantStep(s, s', t)
    || CreateStep(c, s, s', x) || SetStep(c, s, s', t, x, v)
  }

  ghost predicate Next(c: Config, s: State, s': State) {
    exists t, x, v, request :: Step(c, s, s', t, x, v, request)
  }

  /** State `i` of a run follows from the one before by one step. */
  ghost predicate StepAt(c: Config, run: seq<State>, i: nat)
    requires 0 < i < |run|
  {
    Next(c, run[i - 1], run[i])
  }

  ghost predicate IsRun(c: Config, run: seq<State>) {
    && |run| > 0 && Init(c, run[0])
    && forall i :: 0 < i < |run| ==> StepAt(c, run, i)
  }

  // ----- invariants -------------------------------------------------------

  predicate Runs(once: Once) {
    once.Run? || once.Store?
  }

  /** Past the counter's initialisation. */
  predicate PastCounter(pc: Pc) {
    pc.Increment? || (pc.Maximum? && pc.drawn.Some?) || pc.Compare? || pc.Undo? || pc.Grant?
  }

  predicate PastMaximum(pc: Pc) {
    pc.Compare? || pc.Undo? || pc.Grant?
  }

  /** Both initialisations run once, and nobody gets past them before. */
  ghost predicate OnceOnly(c: Config, s: State) {
    && (forall t :: t in s.threads ==> OnceOk(s.counterFlag, s.counterRunner, s.maxFlag, s.maxRunner, t, s.threads[t]))
    && s.counterFlag <= 2 && (s.counterFlag == 1 <==> s.counterRunner.Some?)
    && (s.counterRunner.Some? ==> RunsCounter(s, s.counterRunner.value))
    && (s.counterFlag != 1 ==> s.counterRuns == s.counterFlag / 2)
    && s.maxFlag <= 2 && (s.maxFlag == 1 <==> s.maxRunner.Some?)
    && (s.maxRunner.Some? ==> RunsMaximum(c, s, s.maxRunner.value))
    && (s.maxFlag != 1 ==> s.maxRuns == s.maxFlag / 2)
    && (s.maxFlag == 2 ==> s.max == c.max)
  }

  ghost predicate RunsCounter(s: State, t: nat) {
    t in s.threads && s.threads[t].Counter? && Runs(s.threads[t].once)
    && (if s.threads[t].once.Store? then s.counterRuns == 1 && s.counter == 0 else s.counterRuns == 0)
  }

  ghost predicate RunsMaximum(c: Config, s: State, t: nat) {
    t in s.threads && s.threads[t].Maximum? && Runs(s.threads[t].once)
    && (if s.threads[t].once.Store? then s.maxRuns == 1 && s.max == c.max else s.maxRuns == 0)
  }

  predicate OnceOk(counterFlag: nat, counterRunner: Option<nat>, maxFlag: nat, maxRunner: Option<nat>, t: nat, pc: Pc) {
    && (pc.Counter? && Runs(pc.once) <==> counterRunner == Some(t))
    && (pc.Maximum? && Runs(pc.once) <==> maxRunner == Some(t))
    && (PastCounter(pc) ==> counterFlag == 2)
    && (PastMaximum(pc) ==> maxFlag == 2)
  }

  /** The index a thread has drawn and still works with, or holds. */
  function Drawn(pc: Pc, held: Option<nat>): Option<nat> {
    match pc
    case Maximum(_, index) => if index.Some? then index else held
    case Compare(i) => Some(i)
    case Undo(i) => Some(i)
    case Grant(i) => Some(i)
    case _ => held
  }

  /** The counter stands for the winners and for the losers that have not undone
      their increment; there are losers only when all indices are taken. */
  ghost predicate Counts(c: Config, s: State) {
    && |s.threads.Keys| < UINT_RANGE && s.vars.Keys == s.threads.Keys
    && (s.counterFlag == 2 ==> s.counter == |s.winners| + |s.losers|)
    && (s.counterFlag != 2 ==> s.winners == [] && s.losers == {})
    && Distinct(s.winners) && |s.winners| <= c.max && (s.losers != {} ==> |s.winners| == c.max)
    && (forall t :: t in s.winners || t in s.losers ==> t in s.threads)
    && (forall t :: t in s.threads && t in s.vars ==> DrawOk(c.max, s.winners, s.losers, t, s.threads[t], s.vars[t]))
  }

  predicate DrawOk(max: nat, winners: seq<nat>, losers: set<nat>, t: nat, pc: Pc, held: Option<nat>) {
    var drawn := Drawn(pc, held);
    && (t in winners <==> drawn.Some? && drawn.value < max)
    && (t in losers <==> drawn.Some? && drawn.value >= max)
    && (drawn.Some? && drawn.value < max ==> drawn.value < |winners| && winners[drawn.value] == t)
    && (held.Some? ==> held.value < max && (pc.Idle? || (pc.Maximum? && pc.drawn.None?)))
    && (pc.Grant? ==> pc.index < max)
    && (pc.Undo? ==> pc.index >= max)
  }

  lemma OnceKept(c: Config, s: State, s': State, t: nat, x: nat, v: nat, request: bool)
    requires OnceOnly(c, s) && Step(c, s, s', t, x, v, request)
    ensures OnceOnly(c, s')
  {
    if CounterStep(s, s', t) { CounterOnce(c, s, s', t); }
    else if MaximumStep(c, s, s', t) { MaximumOnce(c, s, s', t); }
    else if IncrementStep(c, s, s', t) { IncrementOnce(c, s, s', t); }
    else { OthersOnce(c, s, s', t, x, v, request); }
  }

  /** What a thread in the counter's initialisation does, the others do not notice. */
  lemma CounterBeside(c: Config, s: State, s': State, t: nat, u: nat)
    requires OnceOnly(c, s) && CounterStep(s, s', t) && u in s'.threads && u != t
    ensures OnceOk(s'.counterFlag, s'.counterRunner, s'.maxFlag, s'.maxRunner, u, s'.threads[u])
  {
    assert OnceOk(s.counterFlag, s.counterRunner, s.maxFlag, s.maxRunner, u, s.threads[u]);
    assert OnceOk(s.counterFlag, s.counterRunner, s.maxFlag, s.maxRunner, t, s.threads[t]);
  }

  lemma CounterThreads(c: Config, s: State, s': State, t: nat)
    requires OnceOnly(c, s) && CounterStep(s, s', t)
    ensures forall u :: u in s'.threads ==>
              OnceOk(s'.counterFlag, s'.counterRunner, s'.maxFlag, s'.maxRunner, u, s'.threads[u])
  {
    assert OnceOk(s.counterFlag, s.counterRunner, s.maxFlag, s.maxRunner, t, s.threads[t]);
    forall u | u in s'.threads && u != t
      ensures OnceOk(s'.counterFlag, s'.counterRunner, s'.maxFlag, s'.maxRunner, u, s'.threads[u])
    {
      CounterBeside(c, s, s', t, u);
    }
  }

  lemma CounterOnce(c: Config, s: State, s': State, t: nat)
    requires OnceOnly(c, s) && CounterStep(s, s', t)
    ensures OnceOnly(c, s')
  {
    assert OnceOk(s.counterFlag, s.counterRunner, s.maxFlag, s.maxRunner, t, s.threads[t]);
    CounterThreads(c, s, s', t);
  }

  lemma MaximumBeside(c: Config, s: State, s': State, t: nat, u: nat)
    requires OnceOnly(c, s) && MaximumStep(c, s, s', t) && u in s'.threads && u != t
    ensures OnceOk(s'.counterFlag, s'.counterRunner, s'.maxFlag, s'.maxRunner, u, s'.threads[u])
  {
    assert OnceOk(s.counterFlag, s.counterRunner, s.maxFlag, s.maxRunner, u, s.threads[u]);
    assert OnceOk(s.counterFlag, s.counterRunner, s.maxFlag, s.maxRunner, t, s.threads[t]);
  }

  lemma MaximumThreads(c: Config, s: State, s': State, t: nat)
    requires OnceOnly(c, s) && MaximumStep(c, s, s', t)
    ensures forall u :: u in s'.threads ==>
              OnceOk(s'.counterFlag, s'.counterRunner, s'.maxFlag, s'.maxRunner, u, s'.threads[u])
  {
    assert OnceOk(s.counterFlag, s.counterRunner, s.maxFlag, s.maxRunner, t, s.threads[t]);
    forall u | u in s'.threads && u != t
      ensures OnceOk(s'.counterFlag, s'.counterRunner, s'.maxFlag, s'.maxRunner, u, s'.threads[u])
    {
      MaximumBeside(c, s, s', t, u);
    }
  }

  lemma MaximumOnce(c: Config, s: State, s': State, t: nat)
    requires OnceOnly(c, s) && MaximumStep(c, s, s', t)
    ensures OnceOnly(c, s')
  {
    assert OnceOk(s.counterFlag, s.counterRunner, s.maxFlag, s.maxRunner, t, s.threads[t]);
    MaximumThreads(c, s, s', t);
  }

  lemma IncrementOnce(c: Config, s: State, s': State, t: nat)
    requires OnceOnly(c, s) && IncrementStep(c, s, s', t)
    ensures OnceOnly(c, s')
  {
  }

  lemma OthersOnce(c: Config, s: State, s': State, t: nat, x: nat, v: nat, request: bool)
    requires OnceOnly(c, s)
    requires CallStep(s, s', t, request) || CompareStep(s, s', t) || UndoStep(s, s', t) || GrantStep(s, s', t)
             || CreateStep(c, s, s', x) || SetStep(c, s, s', t, x, v)
    ensures OnceOnly(c, s')
  {
  }

  // ----- counting ---------------------------------------------------------

  lemma Parts(all: set<nat>, a: set<nat>, b: set<nat>)
    requires a <= all && b <= all && a !! b
    ensures |a| + |b| <= |all|
    ensures a + b != all ==> |a| + |b| < |all|
  {
    var rest := all - (a + b);
    assert all == a + b + rest;
  }

  /** No more threads can have drawn an index than there are threads. */
  lemma DrawnBound(c: Config, s: State)
    requires Counts(c, s)
    ensures |s.winners| + |s.losers| <= |s.threads.Keys|
    ensures (exists t :: t in s.threads && t !in s.winners && t !in s.losers) ==>
              |s.winners| + |s.losers| < |s.threads.Keys|
  {
    var won := set w | w in s.winners;
    DistinctCardinality(s.winners, won);
    forall w | w in won ensures w !in s.losers {
      assert DrawOk(c.max, s.winners, s.losers, w, s.threads[w], s.vars[w]);
    }
    Parts(s.threads.Keys, won, s.losers);
  }

  lemma SameThreads<V>(m: map<nat, V>, t: nat, v: V)
    requires t in m
    ensures m[t := v].Keys == m.Keys
  {
  }

  /** Only the program counter of `t` changes, and not the index it has drawn. */
  lemma PcCounts(c: Config, s: State, s': State, t: nat)
    requires Counts(c, s) && t in s.threads && t in s'.threads && t in s.vars
    requires s'.threads == s.threads[t := s'.threads[t]]
    requires s'.vars == s.vars && s'.winners == s.winners && s'.losers == s.losers
    requires s'.counterFlag == 2 ==> s'.counter == |s.winners| + |s.losers|
    requires s'.counterFlag != 2 ==> s.winners == [] && s.losers == {}
    requires DrawOk(c.max, s.winners, s.losers, t, s.threads[t], s.vars[t])
             ==> DrawOk(c.max, s.winners, s.losers, t, s'.threads[t], s.vars[t])
    ensures Counts(c, s')
  {
    SameThreads(s.threads, t, s'.threads[t]);
    forall u | u in s'.threads && u in s'.vars
      ensures DrawOk(c.max, s'.winners, s'.losers, u, s'.threads[u], s'.vars[u])
    {
      assert DrawOk(c.max, s.winners, s.losers, u, s.threads[u], s.vars[u]);
    }
  }

  lemma CallCounts(c: Config, s: State, s': State, t: nat, request: bool)
    requires Counts(c, s) && CallStep(s, s', t, request)
    ensures Counts(c, s')
  {
    PcCounts(c, s, s', t);
  }

  lemma CounterDraws(max: nat, winners: seq<nat>, losers: set<nat>, t: nat, pc: Pc, pc': Pc, held: Option<nat>)
    requires pc.Counter? && (pc'.Counter? || pc'.Increment?)
    ensures DrawOk(max, winners, losers, t, pc, held) ==> DrawOk(max, winners, losers, t, pc', held)
  {
  }

  lemma CounterCounts(c: Config, s: State, s': State, t: nat)
    requires Counts(c, s) && CounterStep(s, s', t)
    requires Runs(s.threads[t].once) ==> s.counterFlag == 1
    requires s.threads[t].once.Store? ==> s.counter == 0
    ensures Counts(c, s')
  {
    CounterDraws(c.max, s.winners, s.losers, t, s.threads[t], s'.threads[t], s.vars[t]);
    PcCounts(c, s, s', t);
  }

  /** A thread that draws an index does not disturb what the others have drawn. */
  lemma DrawsBeside(max: nat, winners: seq<nat>, losers: set<nat>, t: nat, u: nat, pc: Pc, held: Option<nat>)
    requires DrawOk(max, winners, losers, u, pc, held) && u != t
    ensures DrawOk(max, winners + [t], losers, u, pc, held)
    ensures DrawOk(max, winners, losers + {t}, u, pc, held)
  {
  }

  /** The thread that draws the value of the counter. */
  lemma DrawsNow(max: nat, winners: seq<nat>, losers: set<nat>, t: nat, held: Option<nat>, counter: nat)
    requires DrawOk(max, winners, losers, t, Increment, held) && counter == |winners| + |losers|
    requires |winners| <= max && (losers != {} ==> |winners| == max)
    ensures counter < max ==> DrawOk(max, winners + [t], losers, t, Maximum(Load, Some(counter)), held)
    ensures counter >= max ==> DrawOk(max, winners, losers + {t}, t, Maximum(Load, Some(counter)), held)
    ensures t !in winners && t !in losers
  {
  }

  lemma IncrementCounts(c: Config, s: State, s': State, t: nat)
    requires Counts(c, s) && IncrementStep(c, s, s', t) && s.counterFlag == 2
    ensures Counts(c, s')
  {
    SameThreads(s.threads, t, s'.threads[t]);
    DrawsNow(c.max, s.winners, s.losers, t, s.vars[t], s.counter);
    DrawnBound(c, s);
    assert s'.counter == s.counter + 1;
    forall u | u in s'.threads && u in s'.vars
      ensures DrawOk(c.max, s'.winners, s'.losers, u, s'.threads[u], s'.vars[u])
    {
      if u != t { DrawsBeside(c.max, s.winners, s.losers, t, u, s.threads[u], s.vars[u]); }
    }
  }

  lemma MaximumEffect(c: Config, s: State, s': State, t: nat)
    requires MaximumStep(c, s, s', t)
    ensures t in s'.threads && s'.threads == s.threads[t := s'.threads[t]]
    ensures s'.counter == s.counter && s'.counterFlag == s.counterFlag
    ensures s'.vars == s.vars && s'.winners == s.winners && s'.losers == s.losers
    ensures var pc, index := s'.threads[t], s.threads[t].drawn;
            pc == AfterMaximum(index) || (pc.Maximum? && pc.drawn == index)
  {
  }

  lemma MaximumDraws(max: nat, winners: seq<nat>, losers: set<nat>, t: nat, pc: Pc, pc': Pc, held: Option<nat>)
    requires DrawOk(max, winners, losers, t, pc, held) && pc.Maximum?
    requires pc' == AfterMaximum(pc.drawn) || (pc'.Maximum? && pc'.drawn == pc.drawn)
    ensures DrawOk(max, winners, losers, t, pc', held)
  {
  }

  lemma MaximumCounts(c: Config, s: State, s': State, t: nat)
    requires Counts(c, s) && MaximumStep(c, s, s', t)
    ensures Counts(c, s')
  {
    MaximumEffect(c, s, s', t);
    MaximumDraws(c.max, s.winners, s.losers, t, s.threads[t], s'.threads[t], s.vars[t]);
    PcCounts(c, s, s', t);
  }

  lemma CompareCounts(c: Config, s: State, s': State, t: nat)
    requires Counts(c, s) && CompareStep(s, s', t) && s.max == c.max
    ensures Counts(c, s')
  {
    PcCounts(c, s, s', t);
  }

  lemma Undone(max: nat, winners: seq<nat>, losers: set<nat>, t: nat, u: nat, pc: Pc, held: Option<nat>)
    requires DrawOk(max, winners, losers, u, pc, held)
    ensures u != t ==> DrawOk(max, winners, losers - {t}, u, pc, held)
    ensures u == t && pc.Undo? ==> t in losers && DrawOk(max, winners, losers - {t}, t, Idle, held)
  {
  }

  lemma UndoBalances(c: Config, s: State, s': State, t: nat)
    requires Counts(c, s) && UndoStep(s, s', t) && s.counterFlag == 2
    ensures t in s.losers && |s'.losers| == |s.losers| - 1 && s'.counter == s.counter - 1
  {
    Undone(c.max, s.winners, s.losers, t, t, s.threads[t], s.vars[t]);
    DrawnBound(c, s);
    assert s.losers == s'.losers + {t};
  }

  lemma UndoCounts(c: Config, s: State, s': State, t: nat)
    requires Counts(c, s) && UndoStep(s, s', t) && s.counterFlag == 2
    ensures Counts(c, s')
  {
    SameThreads(s.threads, t, s'.threads[t]);
    UndoBalances(c, s, s', t);
    forall u | u in s'.threads && u in s'.vars
      ensures DrawOk(c.max, s'.winners, s'.losers, u, s'.threads[u], s'.vars[u])
    {
      Undone(c.max, s.winners, s.losers, t, u, s.threads[u], s.vars[u]);
    }
  }

  lemma GrantCounts(c: Config, s: State, s': State, t: nat)
    requires Counts(c, s) && GrantStep(s, s', t)
    ensures Counts(c, s')
  {
    SameThreads(s.threads, t, s'.threads[t]);
    SameThreads(s.vars, t, s'.vars[t]);
    forall u | u in s'.threads && u in s'.vars
      ensures DrawOk(c.max, s'.winners, s'.losers, u, s'.threads[u], s'.vars[u])
    {
      assert DrawOk(c.max, s.winners, s.losers, u, s.threads[u], s.vars[u]);
    }
  }

  lemma CountsKept(c: Config, s: State, s': State, t: nat, x: nat, v: nat, request: bool)
    requires OnceOnly(c, s) && Counts(c, s) && Step(c, s, s', t, x, v, request)
    ensures Counts(c, s')
  {
    if At(s, t) { assert OnceOk(s.counterFlag, s.counterRunner, s.maxFlag, s.maxRunner, t, s.threads[t]); }
    if CallStep(s, s', t, request) { CallCounts(c, s, s', t, request); }
    else if CounterStep(s, s', t) { CounterCounts(c, s, s', t); }
    else if IncrementStep(c, s, s', t) { IncrementCounts(c, s, s', t); }
    else if MaximumStep(c, s, s', t) { MaximumCounts(c, s, s', t); }
    else if CompareStep(s, s', t) { CompareCounts(c, s, s', t); }
    else if UndoStep(s, s', t) { UndoCounts(c, s, s', t); }
    else if GrantStep(s, s', t) { GrantCounts(c, s, s', t); }
    else { StorageCounts(c, s, s', t, x, v); }
  }

  lemma StorageCounts(c: Config, s: State, s': State, t: nat, x: nat, v: nat)
    requires Counts(c, s) && (CreateStep(c, s, s', x) || SetStep(c, s, s', t, x, v))
    ensures Counts(c, s')
  {
    forall u | u in s'.threads && u in s'.vars
      ensures DrawOk(c.max, s'.winners, s'.losers, u, s'.threads[u], s'.vars[u])
    {
      assert DrawOk(c.max, s.winners, s.losers, u, s.threads[u], s.vars[u]);
    }
  }

  // ----- storage ----------------------------------------------------------

  /** Slot `i` of storage `x` holds what the owner of index `i` last set, if anything. */
  predicate SlotOk(workers: nat, winners: seq<nat>, last: map<(nat, nat), nat>, x: nat, i: nat, value: Option<nat>) {
    match value
    case None => i < |winners| ==> (winners[i], x) !in last
    case Some(v) =>
      i < |winners| && (winners[i], x) in last && last[(winners[i], x)] == v
      && (x < workers ==> winners[i] == x && v == x)
  }

  ghost predicate Stored(c: Config, s: State) {
    && (forall x :: x in s.values ==> |s.values[x]| == c.max)
    && (forall x, i :: x in s.values && 0 <= i < |s.values[x]| ==>
        SlotOk(c.workers, s.winners, s.last, x, i, s.values[x][i]))
    && (forall p :: p in s.last ==> p.1 in s.values && p.0 in s.vars && s.vars[p.0].Some?)
  }

  lemma IncrementStored(c: Config, s: State, s': State, t: nat)
    requires Counts(c, s) && Stored(c, s) && IncrementStep(c, s, s', t)
    ensures Stored(c, s')
  {
    assert DrawOk(c.max, s.winners, s.losers, t, Increment, s.vars[t]);
    forall x, i | x in s'.values && 0 <= i < |s'.values[x]|
      ensures SlotOk(c.workers, s'.winners, s'.last, x, i, s'.values[x][i])
    {
      assert SlotOk(c.workers, s.winners, s.last, x, i, s.values[x][i]);
    }
  }

  lemma GrantStored(c: Config, s: State, s': State, t: nat)
    requires Stored(c, s) && GrantStep(s, s', t)
    ensures Stored(c, s')
  {
    forall x, i | x in s'.values && 0 <= i < |s'.values[x]|
      ensures SlotOk(c.workers, s'.winners, s'.last, x, i, s'.values[x][i])
    {
      assert SlotOk(c.workers, s.winners, s.last, x, i, s.values[x][i]);
    }
  }

  lemma CreateStored(c: Config, s: State, s': State, x: nat)
    requires Stored(c, s) && CreateStep(c, s, s', x)
    ensures Stored(c, s')
  {
    forall y, i | y in s'.values && 0 <= i < |s'.values[y]|
      ensures SlotOk(c.workers, s'.winners, s'.last, y, i, s'.values[y][i])
    {
      if y != x { assert SlotOk(c.workers, s.winners, s.last, y, i, s.values[y][i]); }
    }
  }

  /** Setting the slot of one thread leaves those of the others alone. */
  lemma SlotBeside(workers: nat, winners: seq<nat>, last: map<(nat, nat), nat>, y: nat, i: nat, value: Option<nat>,
                   t: nat, x: nat, v: nat)
    requires SlotOk(workers, winners, last, y, i, value) && (i < |winners| && winners[i] == t ==> y != x)
    ensures SlotOk(workers, winners, last[(t, x) := v], y, i, value)
  {
  }

  lemma SlotsSet(c: Config, s: State, s': State, t: nat, x: nat, v: nat, y: nat, i: nat)
    requires Counts(c, s) && Stored(c, s) && SetStep(c, s, s', t, x, v) && y in s'.values && i < |s'.values[y]|
    ensures SlotOk(c.workers, s'.winners, s'.last, y, i, s'.values[y][i])
  {
    assert DrawOk(c.max, s.winners, s.losers, t, Idle, s.vars[t]);
    if y != x || i != s.vars[t].value {
      assert SlotOk(c.workers, s.winners, s.last, y, i, s.values[y][i]);
      SlotBeside(c.workers, s.winners, s.last, y, i, s.values[y][i], t, x, v);
    }
  }

  lemma SetStored(c: Config, s: State, s': State, t: nat, x: nat, v: nat)
    requires Counts(c, s) && Stored(c, s) && SetStep(c, s, s', t, x, v)
    ensures Stored(c, s')
  {
    forall y, i: nat | y in s'.values && i < |s'.values[y]|
      ensures SlotOk(c.workers, s'.winners, s'.last, y, i, s'.values[y][i])
    {
      SlotsSet(c, s, s', t, x, v, y, i);
    }
  }

  lemma OthersStored(c: Config, s: State, s': State)
    requires Stored(c, s) && s'.values == s.values && s'.last == s.last && s'.vars == s.vars && s'.winners == s.winners
    ensures Stored(c, s')
  {
    forall x, i | x in s'.values && 0 <= i < |s'.values[x]|
      ensures SlotOk(c.workers, s'.winners, s'.last, x, i, s'.values[x][i])
    {
      assert SlotOk(c.workers, s.winners, s.last, x, i, s.values[x][i]);
    }
  }

  lemma OthersLeaveStorage(c: Config, s: State, s': State, t: nat, request: bool)
    requires CallStep(s, s', t, request) || CounterStep(s, s', t) || MaximumStep(c, s, s', t) || CompareStep(s, s', t)
             || UndoStep(s, s', t)
    ensures s'.values == s.values && s'.last == s.last && s'.vars == s.vars && s'.winners == s.winners
  {
  }

  lemma StoredKept(c: Config, s: State, s': State, t: nat, x: nat, v: nat, request: bool)
    requires Counts(c, s) && Stored(c, s) && Step(c, s, s', t, x, v, request)
    ensures Stored(c, s')
  {
    if IncrementStep(c, s, s', t) { IncrementStored(c, s, s', t); }
    else if GrantStep(s, s', t) { GrantStored(c, s, s', t); }
    else if CreateStep(c, s, s', x) { CreateStored(c, s, s', x); }
    else if SetStep(c, s, s', t, x, v) { SetStored(c, s, s', t, x, v); }
    else {
      OthersLeaveStorage(c, s, s', t, request);
      OthersStored(c, s, s');
    }
  }
}

/** Requests and replies between two nodes. The requesting node identifies a remote
    task by the id and tag of its handle; replies may come when the task has long
    been deleted and its slot reused. The connections deliver messages in order, as
    module `Wire` shows. */
module Correlation {
  import opened Common
  import opened Handles
  import opened Wire
  import opened NetworkBuffer

  // ----- handles on the wire ----------------------------------------------

  /** The conversions between unsigned handle fields and signed message fields. */
  function ToInt32(u: nat): (v: int)
    requires u < UINT_RANGE
    ensures IsInt32(v)
  {
    if u < 0x8000_0000 then u else u - UINT_RANGE
  }

  function ToUnsigned(v: int): (u: nat)
    requires IsInt32(v)
    ensures u < UINT_RANGE
  {
    if v < 0 then v + UINT_RANGE else v
  }

  lemma HandleRoundTrip(u: nat)
    requires u < UINT_RANGE
    ensures ToUnsigned(ToInt32(u)) == u && ToInt32(u) % UINT_RANGE == u
  {
  }

  // ----- state ------------------------------------------------------------

  /** A task of the requesting node, named by its handle when it was started. */
  type Origin = Issue

  /** A message in transit; `origin` only records what it belongs to. */
  datatype Parcel = Parcel(message: Message, origin: Origin)

  /** A task on the executing node, set up from a start message. */
  datatype Job = Job(domain: int, job: int, priority: int, arguments: seq<Byte>,
                     remoteId: int, remoteTag: int, resultSize: int, origin: Origin)

  /** How an action ended: its status and the bytes of its result. */
  datatype Answer = Answer(status: int, result: seq<Byte>)

  datatype Progress = Requested | Executing | Answered | Checked | Handled

  /** A result message whose handle has passed the check; `found` only records which task
      lived in the slot then. */
  datatype Pending = Pending(parcel: Parcel, found: Issue)

  /** Status and result were copied into the task `target`. */
  datatype Write = Write(target: Issue, found: Issue, origin: Origin, status: int, result: seq<Byte>)

  datatype State = State(
    live: map<nat, int>,            // per slot in use: the result size of its task
    bumps: map<nat, nat>,           // per slot: deallocations; the tag is this modulo 2^32
    requests: seq<Parcel>,          // start messages under way
    jobs: map<nat, Job>,            // tasks on the executing node
    replies: seq<Parcel>,           // result messages under way
    pending: Option<Pending>,       // the receiver is between check and write
    // history
    started: map<Origin, int>,      // per started task: its result size
    asked: map<Origin, Message>,    // what it was started with
    answers: map<Origin, Answer>,   // how the action ended on the other node
    progress: map<Origin, Progress>,
    writes: seq<Write>)

  predicate IsSlot(slot: nat, capacity: nat) {
    0 < slot <= capacity < UINT_RANGE
  }

  ghost predicate Init(s: State, capacity: nat) {
    && capacity < UINT_RANGE
    && (forall slot :: slot in s.bumps <==> IsSlot(slot, capacity))
    && s.live == map[] && s.requests == [] && s.jobs == map[] && s.replies == [] && s.pending == None
    && s.started == map[] && s.asked == map[] && s.answers == map[] && s.progress == map[] && s.writes == []
  }

  // ----- steps ------------------------------------------------------------

  ghost predicate AllocateStep(s: State, s': State, slot: nat, size: nat) {
    && slot in s.bumps && slot !in s.live && IsInt32(size)
    && s' == s.(live := s.live[slot := size])
  }

  /** The task's slot is deallocated: its tag is bumped. */
  ghost predicate RetireStep(s: State, s': State, slot: nat) {
    && slot in s.bumps && slot in s.live
    && s' == s.(live := s.live - {slot}, bumps := s.bumps[slot := s.bumps[slot] + 1])
  }

  /** network_task_start: the start message carries handle and result size. */
  ghost predicate StartStep(s: State, s': State, slot: nat, rest: Message) {
    slot in s.bumps && slot < UINT_RANGE && slot in s.live && rest.StartTask? && IsInt32(s.live[slot]) &&
    var origin := Issue(slot, s.bumps[slot]);
    var message := rest.(id := ToInt32(slot), tag := ToInt32(TagsAfter(s.bumps)[slot]), resultSize := s.live[slot]);
    && origin !in s.started
    && s' == s.(requests := s.requests + [Parcel(message, origin)],
                started := s.started[origin := s.live[slot]], asked := s.asked[origin := rest],
                progress := s.progress[origin := Requested])
  }

  /** The executing node receives a start message and sets up a task. */
  ghost predicate AcceptStep(s: State, s': State, j: nat) {
    s.requests != [] && j !in s.jobs && s.requests[0].message.StartTask? &&
    var m := s.requests[0].message; var origin := s.requests[0].origin;
    var job := Job(m.domain, m.job, m.priority, m.arguments, m.id, m.tag, m.resultSize, origin);
    s' == s.(requests := s.requests[1..], jobs := s.jobs[j := job], progress := s.progress[origin := Executing])
  }

  /** network_task_complete: the result message repeats the handle and carries as many
      bytes as the start message asked for. */
  ghost predicate CompleteStep(s: State, s': State, j: nat, status: int, result: seq<Byte>) {
    j in s.jobs && |result| == s.jobs[j].resultSize &&
    var job := s.jobs[j];
    s' == s.(jobs := s.jobs - {j},
             replies := s.replies + [Parcel(ReturnResult(job.remoteId, job.remoteTag, status, result), job.origin)],
             answers := s.answers[job.origin := Answer(status, result)],
             progress := s.progress[job.origin := Answered])
  }

  /** The requesting node checks the handle of the task, then the handle of the task's
      action; unless both are valid the result is dropped. */
  ghost predicate CheckStep(s: State, s': State, capacity: nat, actionValid: bool) {
    s.pending.None? && s.replies != [] && s.replies[0].message.ReturnResult?
    && IsInt32(s.replies[0].message.id) && IsInt32(s.replies[0].message.tag) &&
    var p := s.replies[0];
    var id := ToUnsigned(p.message.id); var tag := ToUnsigned(p.message.tag);
    var valid := Passes(TagsAfter(s.bumps), capacity, Handle(id, tag)) && actionValid;
    s' == s.(replies := s.replies[1..],
             pending := if valid then Some(Pending(p, Issue(id, s.bumps[id]))) else None,
             progress := s.progress[p.origin := if valid then Checked else Handled])
  }

  /** The result is written to the task that lives in the slot by now. */
  ghost predicate WriteStep(s: State, s': State) {
    s.pending.Some? && s.pending.value.found.id in s.bumps && s.pending.value.parcel.message.ReturnResult? &&
    var p := s.pending.value.parcel; var found := s.pending.value.found;
    var target := Issue(found.id, s.bumps[found.id]);
    s' == s.(pending := None, progress := s.progress[p.origin := Handled],
             writes := s.writes + [Write(target, found, p.origin, p.message.status, p.message.result)])
  }

  ghost predicate Step(s: State, s': State, capacity: nat, k: nat, size: nat, rest: Message, status: int,
                       result: seq<Byte>, b: bool) {
    || AllocateStep(s, s', k, size) || RetireStep(s, s', k) || StartStep(s, s', k, rest) || AcceptStep(s, s', k)
    || CompleteStep(s, s', k, status, result) || CheckStep(s, s', capacity, b) || WriteStep(s, s')
  }

  ghost predicate Next(s: State, s': State, capacity: nat) {
    exists k, size, rest, status, result, b :: Step(s, s', capacity, k, size, rest, status, result, b)
  }

  /** State `i` of a run follows from the one before by one step. */
  ghost predicate StepAt(capacity: nat, run: seq<State>, i: nat)
    requires 0 < i < |run|
  {
    Next(run[i - 1], run[i], capacity)
  }

  ghost predicate Run(capacity: nat, run: seq<State>) {
    && |run| > 0 && Init(run[0], capacity)
    && forall i :: 0 < i < |run| ==> StepAt(capacity, run, i)
  }

  // ----- invariant --------------------------------------------------------

  /** The task a started handle names, while that handle has not been retired. */
  predicate Current(s: State, o: Origin) {
    o.id in s.bumps && s.bumps[o.id] == o.generation
  }

  predicate StartedOk(s: State, o: Origin) {
    && o in s.started && o.id in s.bumps && o.generation <= s.bumps[o.id]
    && (Current(s, o) ==> o.id in s.live && s.live[o.id] == s.started[o])
  }

  ghost predicate Known(s: State, o: Origin, p: Progress) {
    o in s.started && o in s.progress && s.progress[o] == p && o.id in s.bumps && o.generation <= s.bumps[o.id]
  }

  /** Handle and size as they were when the task was started. */
  predicate Matches(s: State, o: Origin, id: int, tag: int, size: int) {
    o in s.started && o.id < UINT_RANGE && id == ToInt32(o.id) && tag == ToInt32(o.generation % UINT_RANGE)
      && size == s.started[o]
  }

  ghost predicate RequestOk(s: State, p: Parcel) {
    Known(s, p.origin, Requested) && p.message.StartTask?
    && Matches(s, p.origin, p.message.id, p.message.tag, p.message.resultSize)
  }

  ghost predicate JobOk(s: State, job: Job) {
    Known(s, job.origin, Executing) && Matches(s, job.origin, job.remoteId, job.remoteTag, job.resultSize)
  }

  ghost predicate ReplyOk(s: State, p: Parcel) {
    Known(s, p.origin, Answered) && p.message.ReturnResult?
    && Matches(s, p.origin, p.message.id, p.message.tag, |p.message.result|)
  }

  /** The task found in the slot has the tag that was sent. */
  predicate SameTag(found: Issue, o: Origin) {
    found.id == o.id && found.AsHandle() == o.AsHandle() && o.generation <= found.generation
  }

  ghost predicate PendingOk(s: State, p: Pending) {
    && Known(s, p.parcel.origin, Checked) && p.parcel.message.ReturnResult? && SameTag(p.found, p.parcel.origin)
    && p.found.generation <= s.bumps[p.found.id] && |p.parcel.message.result| == s.started[p.parcel.origin]
  }

  ghost predicate WriteOk(s: State, w: Write) {
    && Known(s, w.origin, Handled) && SameTag(w.found, w.origin) && |w.result| == s.started[w.origin]
    && w.target.id == w.origin.id && w.found.generation <= w.target.generation
  }

  ghost predicate Base(s: State, capacity: nat) {
    && (forall slot :: slot in s.bumps <==> IsSlot(slot, capacity))
    && (forall o :: o in s.started ==> StartedOk(s, o))
  }

  /** Every message, job and write stands for a started task, as far as it has come. */
  ghost predicate Items(s: State) {
    && (forall i :: 0 <= i < |s.requests| ==> RequestOk(s, s.requests[i]))
    && (forall j :: j in s.jobs ==> JobOk(s, s.jobs[j]))
    && (forall i :: 0 <= i < |s.replies| ==> ReplyOk(s, s.replies[i]))
    && (s.pending.Some? ==> PendingOk(s, s.pending.value))
    && (forall i :: 0 <= i < |s.writes| ==> WriteOk(s, s.writes[i]))
  }

  /** Different messages, jobs and writes stand for different tasks. */
  ghost predicate Apart(s: State) {
    && (forall i, j :: 0 <= i < j < |s.requests| ==> s.requests[i].origin != s.requests[j].origin)
    && (forall i, j :: i in s.jobs && j in s.jobs && i != j ==> s.jobs[i].origin != s.jobs[j].origin)
    && (forall i, j :: 0 <= i < j < |s.replies| ==> s.replies[i].origin != s.replies[j].origin)
    && (forall i, j :: 0 <= i < j < |s.writes| ==> s.writes[i].origin != s.writes[j].origin)
  }

  /** The task is asked to do what it was started for. */
  predicate Asks(s: State, o: Origin, domain: int, job: int, priority: int, arguments: seq<Byte>) {
    && o in s.asked && s.asked[o].StartTask? && domain == s.asked[o].domain && job == s.asked[o].job
    && priority == s.asked[o].priority && arguments == s.asked[o].arguments
  }

  predicate Answers(s: State, o: Origin, status: int, result: seq<Byte>) {
    o in s.answers && s.answers[o] == Answer(status, result)
  }

  predicate RequestAsks(s: State, p: Parcel) {
    p.message.StartTask? && Asks(s, p.origin, p.message.domain, p.message.job, p.message.priority, p.message.arguments)
  }

  predicate JobAsks(s: State, job: Job) {
    Asks(s, job.origin, job.domain, job.job, job.priority, job.arguments)
  }

  predicate ReplyAnswers(s: State, p: Parcel) {
    p.message.ReturnResult? && Answers(s, p.origin, p.message.status, p.message.result)
  }

  predicate WriteAnswers(s: State, w: Write) {
    Answers(s, w.origin, w.status, w.result)
  }

  /** Requests and jobs ask for what their tasks were started for, and results are those of
      the actions. */
  ghost predicate Contents(s: State) {
    && (forall i :: 0 <= i < |s.requests| ==> RequestAsks(s, s.requests[i]))
    && (forall j :: j in s.jobs ==> JobAsks(s, s.jobs[j]))
    && (forall i :: 0 <= i < |s.replies| ==> ReplyAnswers(s, s.replies[i]))
    && (s.pending.Some? ==> ReplyAnswers(s, s.pending.value.parcel))
    && (forall i :: 0 <= i < |s.writes| ==> WriteAnswers(s, s.writes[i]))
  }

  ghost predicate Inv(s: State, capacity: nat) {
    Base(s, capacity) && Items(s) && Apart(s) && Contents(s)
  }

  lemma AllocateKept(s: State, s': State, capacity: nat, slot: nat, size: nat)
    requires Base(s, capacity) && Items(s) && Apart(s) && AllocateStep(s, s', slot, size)
    ensures Base(s', capacity) && Items(s') && Apart(s')
  {
  }

  lemma RetireKept(s: State, s': State, capacity: nat, slot: nat)
    requires Base(s, capacity) && Items(s) && Apart(s) && RetireStep(s, s', slot)
    ensures Base(s', capacity) && Items(s') && Apart(s')
  {
  }

  lemma StartItems(s: State, s': State, slot: nat, rest: Message)
    requires Items(s) && StartStep(s, s', slot, rest)
    ensures Items(s')
  {
  }

  lemma StartKept(s: State, s': State, capacity: nat, slot: nat, rest: Message)
    requires Base(s, capacity) && Items(s) && Apart(s) && StartStep(s, s', slot, rest)
    ensures Base(s', capacity) && Items(s') && Apart(s')
  {
    StartItems(s, s', slot, rest);
    assert forall i :: 0 <= i < |s.requests| ==> RequestOk(s, s.requests[i]);
  }

  lemma AcceptItems(s: State, s': State, j: nat)
    requires Items(s) && Apart(s) && AcceptStep(s, s', j)
    ensures Items(s')
  {
  }

  lemma AcceptApart(s: State, s': State, j: nat)
    requires Items(s) && Apart(s) && AcceptStep(s, s', j)
    ensures Apart(s')
  {
    assert RequestOk(s, s.requests[0]);
    forall k | k in s.jobs ensures s.jobs[k].origin != s.requests[0].origin {
      assert JobOk(s, s.jobs[k]);
    }
  }

  lemma AcceptKept(s: State, s': State, capacity: nat, j: nat)
    requires Base(s, capacity) && Items(s) && Apart(s) && AcceptStep(s, s', j)
    ensures Base(s', capacity) && Items(s') && Apart(s')
  {
    AcceptItems(s, s', j);
    AcceptApart(s, s', j);
  }

  lemma CompleteItems(s: State, s': State, j: nat, status: int, result: seq<Byte>)
    requires Items(s) && Apart(s) && CompleteStep(s, s', j, status, result)
    ensures Items(s')
  {
  }

  lemma CompleteKept(s: State, s': State, capacity: nat, j: nat, status: int, result: seq<Byte>)
    requires Base(s, capacity) && Items(s) && Apart(s) && CompleteStep(s, s', j, status, result)
    ensures Base(s', capacity) && Items(s') && Apart(s')
  {
    CompleteItems(s, s', j, status, result);
    assert JobOk(s, s.jobs[j]);
    forall i | 0 <= i < |s.replies| ensures s.replies[i].origin != s.jobs[j].origin {
      assert ReplyOk(s, s.replies[i]);
    }
  }

  lemma CheckItems(s: State, s': State, capacity: nat, actionValid: bool)
    requires Items(s) && Apart(s) && CheckStep(s, s', capacity, actionValid)
    ensures Items(s')
  {
    HandleRoundTrip(s.replies[0].origin.id);
    HandleRoundTrip(s.replies[0].origin.generation % UINT_RANGE);
  }

  lemma CheckKept(s: State, s': State, capacity: nat, actionValid: bool)
    requires Base(s, capacity) && Items(s) && Apart(s) && CheckStep(s, s', capacity, actionValid)
    ensures Base(s', capacity) && Items(s') && Apart(s')
  {
    CheckItems(s, s', capacity, actionValid);
  }

  lemma WriteKept(s: State, s': State, capacity: nat)
    requires Base(s, capacity) && Items(s) && Apart(s) && WriteStep(s, s')
    ensures Base(s', capacity) && Items(s') && Apart(s')
  {
  }

  lemma StepKept(s: State, s': State, capacity: nat, k: nat, size: nat, rest: Message, status: int, result: seq<Byte>,
                 b: bool)
    requires Base(s, capacity) && Items(s) && Apart(s) && Step(s, s', capacity, k, size, rest, status, result, b)
    ensures Base(s', capacity) && Items(s') && Apart(s')
  {
    if AllocateStep(s, s', k, size) {
      AllocateKept(s, s', capacity, k, size);
    } else if RetireStep(s, s', k) {
      RetireKept(s, s', capacity, k);
    } else if StartStep(s, s', k, rest) {
      StartKept(s, s', capacity, k, rest);
    } else if AcceptStep(s, s', k) {
      AcceptKept(s, s', capacity, k);
    } else if CompleteStep(s, s', k, status, result) {
      CompleteKept(s, s', capacity, k, status, result);
    } else if CheckStep(s, s', capacity, b) {
      CheckKept(s, s', capacity, b);
    } else {
      WriteKept(s, s', capacity);
    }
  }

  lemma StartContents(s: State, s': State, slot: nat, rest: Message)
    requires Items(s) && Contents(s) && StartStep(s, s', slot, rest)
    ensures Contents(s')
  {
    assert forall i :: 0 <= i < |s.requests| ==> RequestOk(s, s.requests[i]);
    assert forall j :: j in s.jobs ==> JobOk(s, s.jobs[j]);
  }

  lemma AcceptContents(s: State, s': State, j: nat)
    requires Contents(s) && AcceptStep(s, s', j)
    ensures Contents(s')
  {
    assert RequestAsks(s, s.requests[0]);
  }

  lemma CompleteContents(s: State, s': State, j: nat, status: int, result: seq<Byte>)
    requires Items(s) && Contents(s) && CompleteStep(s, s', j, status, result)
    ensures Contents(s')
  {
    assert JobOk(s, s.jobs[j]);
    assert forall i :: 0 <= i < |s.replies| ==> ReplyOk(s, s.replies[i]);
    assert forall i :: 0 <= i < |s.writes| ==> WriteOk(s, s.writes[i]);
  }

  lemma CheckContents(s: State, s': State, capacity: nat, actionValid: bool)
    requires Contents(s) && CheckStep(s, s', capacity, actionValid)
    ensures Contents(s')
  {
  }

  lemma WriteContents(s: State, s': State)
    requires Contents(s) && WriteStep(s, s')
    ensures Contents(s')
  {
  }

  lemma SlotContents(s: State, s': State, slot: nat, size: nat)
    requires Contents(s) && (AllocateStep(s, s', slot, size) || RetireStep(s, s', slot))
    ensures Contents(s')
  {
  }

  lemma ContentsKept(s: State, s': State, capacity: nat, k: nat, size: nat, rest: Message, status: int,
                     result: seq<Byte>, b: bool)
    requires Items(s) && Contents(s) && Step(s, s', capacity, k, size, rest, status, result, b)
    ensures Contents(s')
  {
    if StartStep(s, s', k, rest) {
      StartContents(s, s', k, rest);
    } else if AcceptStep(s, s', k) {
      AcceptContents(s, s', k);
    } else if CompleteStep(s, s', k, status, result) {
      CompleteContents(s, s', k, status, result);
    } else if CheckStep(s, s', capacity, b) {
      CheckContents(s, s', capacity, b);
    } else if WriteStep(s, s') {
      WriteContents(s, s');
    } else {
      SlotContents(s, s', k, size);
    }
  }

  lemma NextKept(s: State, s': State, capacity: nat)
    requires Inv(s, capacity) && Next(s, s', capacity)
    ensures Inv(s', capacity)
  {
    var k, size, rest, status, result, b :| Step(s, s', capacity, k, size, rest, status, result, b);
    StepKept(s, s', capacity, k, size, rest, status, result, b);
    ContentsKept(s, s', capacity, k, size, rest, status, result, b);
  }

  lemma {:induction false} RunSafe(capacity: nat, run: seq<State>, i: nat)
    requires Run(capacity, run) && i < |run|
    ensures Inv(run[i], capacity)
  {
    if i > 0 {
      RunSafe(capacity, run, i - 1);
      assert StepAt(capacity, run, i);
      NextKept(run[i - 1], run[i], capacity);
    }
  }

  // ----- correlation ------------------------------------------------------

  ghost predicate Reached(capacity: nat, s: State) {
    exists run :: Run(capacity, run) && run[|run| - 1] == s
  }

  lemma ReachedSafe(capacity: nat, s: State)
    requires Reached(capacity, s)
    ensures Inv(s, capacity)
  {
    var run :| Run(capacity, run) && run[|run| - 1] == s;
    RunSafe(capacity, run, |run| - 1);
  }

  /** In every reachable state a reply belongs to a started task. It passes the check
      exactly when the action is valid and the slot has been deallocated a multiple of
      2^32 times since the request. */
  lemma ReplyChecked(capacity: nat, s: State, s': State, actionValid: bool)
    requires Reached(capacity, s) && CheckStep(s, s', capacity, actionValid)
    ensures var p := s.replies[0]; var o := p.origin;
            && o in s.started && o.id in s.bumps && o.generation <= s.bumps[o.id] && s'.writes == s.writes
            && s'.pending == if actionValid && (s.bumps[o.id] - o.generation) % UINT_RANGE == 0
                             then Some(Pending(p, Issue(o.id, s.bumps[o.id]))) else None
  {
    ReachedSafe(capacity, s);
    assert ReplyOk(s, s.replies[0]);
    var o := s.replies[0].origin;
    HandleRoundTrip(o.id);
    HandleRoundTrip(o.generation % UINT_RANGE);
    SameResidue(s.bumps[o.id], o.generation);
  }

  /** With fewer deallocations the reply to a retired task is dropped. */
  lemma RetiredDropped(capacity: nat, s: State, s': State, actionValid: bool)
    requires Reached(capacity, s) && CheckStep(s, s', capacity, actionValid)
    requires var o := s.replies[0].origin; o.id in s.bumps ==> s.bumps[o.id] - o.generation < UINT_RANGE
    ensures s'.pending.Some? <==> actionValid && Current(s, s.replies[0].origin)
  {
    ReplyChecked(capacity, s, s', actionValid);
  }

  /** What is written is how the action ended, has the size the task asked for, and goes to
      the slot of the task. */
  lemma ReplyTarget(capacity: nat, s: State, s': State)
    requires Reached(capacity, s) && WriteStep(s, s')
    ensures var o := s.pending.value.parcel.origin; var found := s.pending.value.found;
            && o in s.started && found.id == o.id && o.id in s.bumps && SameTag(found, o)
            && var m := s.pending.value.parcel.message;
            && |m.result| == s.started[o] && Answers(s, o, m.status, m.result)
            && s'.writes == s.writes + [Write(Issue(o.id, s.bumps[o.id]), found, o, m.status, m.result)]
  {
    ReachedSafe(capacity, s);
  }

  /** No slot is deallocated, no task started and no action ends. */
  ghost predicate Static(s: State, s': State) {
    s'.bumps == s.bumps && s'.started == s.started && s'.asked == s.asked && s'.answers == s.answers
  }

  lemma StaticSteps(s: State, s': State, capacity: nat, k: nat, size: nat, b: bool)
    requires AllocateStep(s, s', k, size) || AcceptStep(s, s', k) || CheckStep(s, s', capacity, b) || WriteStep(s, s')
    ensures Static(s, s')
  {
    if CheckStep(s, s', capacity, b) { StaticCheck(s, s', capacity, b); }
    else if AcceptStep(s, s', k) { StaticAccept(s, s', k); }
  }

  lemma StaticCheck(s: State, s': State, capacity: nat, b: bool)
    requires CheckStep(s, s', capacity, b)
    ensures Static(s, s')
  {
  }

  lemma StaticAccept(s: State, s': State, j: nat)
    requires AcceptStep(s, s', j)
    ensures Static(s, s')
  {
  }

  lemma RetireMoves(s: State, s': State, slot: nat)
    requires RetireStep(s, s', slot)
    ensures Static(s, s'.(bumps := s.bumps)) && s'.bumps == s.bumps[slot := s.bumps[slot] + 1]
  {
  }

  lemma StartMoves(s: State, s': State, slot: nat, rest: Message)
    requires StartStep(s, s', slot, rest)
    ensures s'.bumps == s.bumps && s'.answers == s.answers
    ensures var o := Issue(slot, s.bumps[slot]);
            o in s'.started && s'.started.Keys == s.started.Keys + {o} && s'.asked == s.asked[o := rest]
  {
  }

  lemma CompleteMoves(s: State, s': State, j: nat, status: int, result: seq<Byte>)
    requires CompleteStep(s, s', j, status, result)
    ensures Static(s, s'.(answers := s.answers))
    ensures s'.answers == s.answers[s.jobs[j].origin := Answer(status, result)]
  {
  }

  lemma OtherMoves(s: State, s': State, capacity: nat, o: Origin)
    requires Next(s, s', capacity) && o.id in s.bumps && !RetireStep(s, s', o.id)
    ensures o.id in s'.bumps && s'.bumps[o.id] == s.bumps[o.id]
    ensures o in s.started ==> o in s'.started
    ensures o in s'.started && o !in s.started ==> Current(s', o)
  {
    var k, size, rest, status, result, b :| Step(s, s', capacity, k, size, rest, status, result, b);
    if RetireStep(s, s', k) { RetireMoves(s, s', k); }
    else if StartStep(s, s', k, rest) { StartMoves(s, s', k, rest); }
    else if CompleteStep(s, s', k, status, result) { CompleteMoves(s, s', k, status, result); }
    else { StaticSteps(s, s', capacity, k, size, b); }
  }

  /** Only a retirement of a started task's slot ends its time there, and a task is
      current when it is started. */
  lemma StartedMoves(s: State, s': State, capacity: nat, o: Origin)
    requires Next(s, s', capacity) && o.id in s.bumps
    ensures o.id in s'.bumps && s'.bumps[o.id] == s.bumps[o.id] + (if RetireStep(s, s', o.id) then 1 else 0)
    ensures o in s.started ==> o in s'.started
    ensures o in s'.started && o !in s.started ==> Current(s', o)
  {
    if RetireStep(s, s', o.id) { RetireMoves(s, s', o.id); } else { OtherMoves(s, s', capacity, o); }
  }

  /** The slot of `o` is deallocated between states `k` and `k + 1`, after the request. */
  ghost predicate RetiredAt(run: seq<State>, k: nat, o: Origin)
    requires k + 1 < |run|
  {
    o in run[k].started && RetireStep(run[k], run[k + 1], o.id)
  }

  /** What one step does to a started task. */
  lemma CurrentStep(capacity: nat, run: seq<State>, i: nat, o: Origin)
    requires Run(capacity, run) && 0 < i < |run| && o in run[i - 1].started
    ensures Current(run[i], o) <==> Current(run[i - 1], o) && !RetiredAt(run, i - 1, o)
  {
    RunSafe(capacity, run, i - 1);
    assert StartedOk(run[i - 1], o);
    assert StepAt(capacity, run, i);
    StartedMoves(run[i - 1], run[i], capacity, o);
  }

  /** A task is current when it has just been started. */
  lemma CurrentFirst(capacity: nat, run: seq<State>, i: nat, o: Origin)
    requires Run(capacity, run) && 0 < i < |run| && o in run[i].started && o !in run[i - 1].started
    ensures Current(run[i], o) && forall k :: 0 <= k < i ==> o !in run[k].started
  {
    SlotBefore(capacity, run, i, o);
    assert StepAt(capacity, run, i);
    StartedMoves(run[i - 1], run[i], capacity, o);
    NotStartedBefore(capacity, run, i - 1, o);
  }

  lemma SlotBefore(capacity: nat, run: seq<State>, i: nat, o: Origin)
    requires Run(capacity, run) && 0 < i < |run| && o in run[i].started
    ensures o.id in run[i - 1].bumps
  {
    RunSafe(capacity, run, i - 1);
    RunSafe(capacity, run, i);
    assert StartedOk(run[i], o);
  }

  /** A started task is current if and only if its slot has not been deallocated since. */
  lemma {:induction false} CurrentIff(capacity: nat, run: seq<State>, i: nat, o: Origin)
    requires Run(capacity, run) && i < |run| && o in run[i].started
    ensures Current(run[i], o) <==> forall k :: 0 <= k < i ==> !RetiredAt(run, k, o)
  {
    if i > 0 {
      if o in run[i - 1].started {
        CurrentIff(capacity, run, i - 1, o);
        CurrentStep(capacity, run, i, o);
      } else {
        CurrentFirst(capacity, run, i, o);
      }
    }
  }

  /** A task that has not been started has not been started before. */
  lemma {:induction false} NotStartedBefore(capacity: nat, run: seq<State>, i: nat, o: Origin)
    requires Run(capacity, run) && i < |run| && o.id in run[i].bumps && o !in run[i].started
    ensures forall k :: 0 <= k <= i ==> o !in run[k].started
  {
    if i > 0 {
      RunSafe(capacity, run, i - 1);
      RunSafe(capacity, run, i);
      assert StepAt(capacity, run, i);
      StartedMoves(run[i - 1], run[i], capacity, o);
      NotStartedBefore(capacity, run, i - 1, o);
    }
  }

  /** A result reaches the task that asked for it if and only if the slot of that task has
      not been deallocated between the request and the write; then the task is live and
      expects that many bytes. */
  lemma ReplyExact(capacity: nat, run: seq<State>, i: nat, s': State)
    requires Run(capacity, run) && i < |run| && WriteStep(run[i], s')
    ensures run[i].writes < s'.writes
    ensures var o := run[i].pending.value.parcel.origin; var w := s'.writes[|run[i].writes|];
            && w.origin == o && (w.target == o <==> forall k :: 0 <= k < i ==> !RetiredAt(run, k, o))
            && (w.target == o ==> o.id in run[i].live && |w.result| == run[i].live[o.id])
            && Answers(run[i], o, w.status, w.result)
  {
    var o := run[i].pending.value.parcel.origin;
    ReachedAt(capacity, run, i);
    ReplyTarget(capacity, run[i], s');
    RunSafe(capacity, run, i);
    assert StartedOk(run[i], o);
    CurrentIff(capacity, run, i, o);
  }

  lemma ReachedAt(capacity: nat, run: seq<State>, i: nat)
    requires Run(capacity, run) && i < |run|
    ensures Reached(capacity, run[i])
  {
    var part := run[..i + 1];
    forall k | 0 < k < |part| ensures StepAt(capacity, part, k) {
      assert StepAt(capacity, run, k);
    }
    assert Run(capacity, part) && part[|part| - 1] == run[i];
  }

  /** In every state of a run: every write belongs to a started task, has its length, hits its
      slot, never an older generation, and the task itself if the slot was deallocated
      fewer than 2^32 times before the check and not at all between check and write. No
      task is answered twice. */
  lemma WritesCorrelated(capacity: nat, s: State)
    requires Reached(capacity, s)
    ensures forall k {:trigger s.writes[k]} :: 0 <= k < |s.writes| ==>
              var w := s.writes[k];
              && w.origin in s.started && |w.result| == s.started[w.origin]
              && w.target.id == w.origin.id && w.origin.generation <= w.found.generation <= w.target.generation
              && (w.found.generation - w.origin.generation < UINT_RANGE ==> w.found == w.origin)
    ensures forall k, l :: 0 <= k < l < |s.writes| ==> s.writes[k].origin != s.writes[l].origin
  {
    ReachedSafe(capacity, s);
    forall k | 0 <= k < |s.writes|
      ensures WriteOk(s, s.writes[k])
      ensures var w := s.writes[k]; w.found.generation - w.origin.generation < UINT_RANGE ==> w.found == w.origin
    {
      var w := s.writes[k];
      assert WriteOk(s, w);
      SameResidue(w.found.generation, w.origin.generation);
    }
  }

  // ----- what is executed and what comes back -----------------------------

  /** Between states `k` and `k + 1` task `o` is started with what `rest` says. */
  ghost predicate StartedAt(run: seq<State>, k: nat, o: Origin, rest: Message)
    requires k + 1 < |run|
  {
    StartStep(run[k], run[k + 1], o.id, rest) && run[k].bumps[o.id] == o.generation
  }

  /** Between states `k` and `k + 1` an action ends that was executed for task `o`. */
  ghost predicate AnsweredAt(run: seq<State>, k: nat, o: Origin, job: Job, status: int, result: seq<Byte>)
    requires k + 1 < |run|
  {
    exists j :: CompleteStep(run[k], run[k + 1], j, status, result) && run[k].jobs[j] == job && job.origin == o
  }

  lemma AskedMoves(s: State, s': State, capacity: nat, o: Origin)
    requires Next(s, s', capacity) && o in s'.asked && !(o in s.asked && s'.asked[o] == s.asked[o])
    ensures StartStep(s, s', o.id, s'.asked[o]) && s.bumps[o.id] == o.generation
  {
    var k, size, rest, status, result, b :| Step(s, s', capacity, k, size, rest, status, result, b);
    if RetireStep(s, s', k) { RetireMoves(s, s', k); }
    else if StartStep(s, s', k, rest) { StartMoves(s, s', k, rest); }
    else if CompleteStep(s, s', k, status, result) { CompleteMoves(s, s', k, status, result); }
    else { StaticSteps(s, s', capacity, k, size, b); }
  }

  lemma AnswersMove(s: State, s': State, capacity: nat, o: Origin)
    requires Next(s, s', capacity) && o in s'.answers && !(o in s.answers && s'.answers[o] == s.answers[o])
    ensures exists j :: CompleteStep(s, s', j, s'.answers[o].status, s'.answers[o].result) && s.jobs[j].origin == o
  {
    var k, size, rest, status, result, b :| Step(s, s', capacity, k, size, rest, status, result, b);
    if RetireStep(s, s', k) { RetireMoves(s, s', k); }
    else if StartStep(s, s', k, rest) { StartMoves(s, s', k, rest); }
    else if CompleteStep(s, s', k, status, result) { CompleteMoves(s, s', k, status, result); }
    else { StaticSteps(s, s', capacity, k, size, b); }
  }

  lemma {:induction false} AskedBefore(capacity: nat, run: seq<State>, i: nat, o: Origin)
    requires Run(capacity, run) && i < |run| && o in run[i].asked
    ensures exists k :: 0 <= k < i && StartedAt(run, k, o, run[i].asked[o])
  {
    if i > 0 {
      assert StepAt(capacity, run, i);
      if o in run[i - 1].asked && run[i].asked[o] == run[i - 1].asked[o] {
        AskedBefore(capacity, run, i - 1, o);
      } else {
        AskedMoves(run[i - 1], run[i], capacity, o);
        assert StartedAt(run, i - 1, o, run[i].asked[o]);
      }
    }
  }

  lemma {:induction false} AnsweredBefore(capacity: nat, run: seq<State>, i: nat, o: Origin)
    requires Run(capacity, run) && i < |run| && o in run[i].answers
    ensures exists k, job :: 0 <= k < i && AnsweredAt(run, k, o, job, run[i].answers[o].status,
                                                      run[i].answers[o].result)
  {
    if i > 0 {
      assert StepAt(capacity, run, i);
      if o in run[i - 1].answers && run[i].answers[o] == run[i - 1].answers[o] {
        AnsweredBefore(capacity, run, i - 1, o);
      } else {
        AnswersMove(run[i - 1], run[i], capacity, o);
        var a := run[i].answers[o];
        var j :| CompleteStep(run[i - 1], run[i], j, a.status, a.result) && run[i - 1].jobs[j].origin == o;
        assert AnsweredAt(run, i - 1, o, run[i - 1].jobs[j], a.status, a.result);
      }
    }
  }

  /** Every task of the executing node does what one task of the other node was started
      for: job, domain, priority, arguments and size of the result. */
  lemma JobExact(capacity: nat, run: seq<State>, i: nat, j: nat)
    requires Run(capacity, run) && i < |run| && j in run[i].jobs
    ensures var job := run[i].jobs[j]; job.origin in run[i].started && job.resultSize == run[i].started[job.origin]
    ensures exists k, rest ::
              0 <= k < i && StartedAt(run, k, run[i].jobs[j].origin, rest) && DoneFor(run[i].jobs[j], rest)
  {
    RunSafe(capacity, run, i);
    var job := run[i].jobs[j];
    assert JobOk(run[i], job) && JobAsks(run[i], job);
    AskedBefore(capacity, run, i, job.origin);
    var k :| 0 <= k < i && StartedAt(run, k, job.origin, run[i].asked[job.origin]);
    assert DoneFor(job, run[i].asked[job.origin]);
  }

  ghost predicate DoneFor(job: Job, rest: Message) {
    && rest.StartTask? && job.domain == rest.domain && job.job == rest.job && job.priority == rest.priority
    && job.arguments == rest.arguments
  }

  /** A call across the network: whatever status and bytes are written for a task, an action
      ended with exactly these after it had been given exactly the arguments, job, domain
      and priority with which that task had been started before. */
  lemma RemoteCall(capacity: nat, run: seq<State>, i: nat, n: nat)
    requires Run(capacity, run) && i < |run| && n < |run[i].writes|
    ensures var w := run[i].writes[n];
            exists k, l, rest, job :: 0 <= k < l < i && StartedAt(run, k, w.origin, rest) && DoneFor(job, rest)
                                      && AnsweredAt(run, l, w.origin, job, w.status, w.result)
  {
    var w := run[i].writes[n];
    RunSafe(capacity, run, i);
    assert WriteAnswers(run[i], w);
    AnsweredBefore(capacity, run, i, w.origin);
    var l, job :| 0 <= l < i && AnsweredAt(run, l, w.origin, job, w.status, w.result);
    var j :| CompleteStep(run[l], run[l + 1], j, w.status, w.result) && run[l].jobs[j] == job && job.origin == w.origin;
    JobExact(capacity, run, l, j);
    var k, rest :| 0 <= k < l && StartedAt(run, k, job.origin, rest) && DoneFor(job, rest);
  }

  // ----- runs -------------------------------------------------------------

  lemma ReachedNext(capacity: nat, s: State, s': State)
    requires Reached(capacity, s) && Next(s, s', capacity)
    ensures Reached(capacity, s')
  {
    var run :| Run(capacity, run) && run[|run| - 1] == s;
    var longer := run + [s'];
    forall i | 0 < i < |longer| ensures StepAt(capacity, longer, i)
    {
      assert longer[i - 1] == run[i - 1];
      assert i < |run| ==> longer[i] == run[i] && StepAt(capacity, run, i);
    }
    assert Run(capacity, longer) && longer[|longer| - 1] == s';
  }

  lemma AfterAllocate(capacity: nat, s: State, s': State, slot: nat, size: nat)
    requires Reached(capacity, s) && AllocateStep(s, s', slot, size)
    ensures Reached(capacity, s')
  {
    assert Step(s, s', capacity, slot, size, ReturnResult(0, 0, 0, []), 0, [], true);
    ReachedNext(capacity, s, s');
  }

  lemma AfterRetire(capacity: nat, s: State, s': State, slot: nat)
    requires Reached(capacity, s) && RetireStep(s, s', slot)
    ensures Reached(capacity, s')
  {
    assert Step(s, s', capacity, slot, 0, ReturnResult(0, 0, 0, []), 0, [], true);
    ReachedNext(capacity, s, s');
  }

  const FIRST := Issue(1, 0)
  const REQUEST := StartTask(0, 0, 0, 1, 0, 0, [])
  const ANSWER := ReturnResult(1, 0, 0, [])

  // ----- every call can be made and answered ------------------------------

  /** One task has been started with what `rest` says and has come as far as `progress`
      says; `answer` is what its action ends with. */
  function Called(progress: Progress, rest: Message, answer: Answer): State
    requires rest.StartTask?
  {
    var size := |answer.result|;
    var reply := Parcel(ReturnResult(1, 0, answer.status, answer.result), FIRST);
    State(map[1 := size], map[1 := 0],
          if progress == Requested then [Parcel(rest.(id := 1, tag := 0, resultSize := size), FIRST)] else [],
          if progress == Executing
          then map[0 := Job(rest.domain, rest.job, rest.priority, rest.arguments, 1, 0, size, FIRST)] else map[],
          if progress == Answered then [reply] else [],
          if progress == Checked then Some(Pending(reply, FIRST)) else None,
          map[FIRST := size], map[FIRST := rest],
          if progress == Requested || progress == Executing then map[] else map[FIRST := answer],
          map[FIRST := progress],
          if progress == Handled then [Write(FIRST, FIRST, FIRST, answer.status, answer.result)] else [])
  }

  lemma CallRequested(rest: Message, answer: Answer)
    requires rest.StartTask? && IsInt32(|answer.result|)
    ensures Reached(1, Called(Requested, rest, answer))
  {
    var s0 := State(map[], map[1 := 0], [], map[], [], None, map[], map[], map[], map[], []);
    assert Run(1, [s0]) && [s0][|[s0]| - 1] == s0;
    var s1, s2 := s0.(live := map[1 := |answer.result|]), Called(Requested, rest, answer);
    AfterAllocate(1, s0, s1, 1, |answer.result|);
    assert StartStep(s1, s2, 1, rest);
    assert Step(s1, s2, 1, 1, 0, rest, 0, [], true);
    ReachedNext(1, s1, s2);
  }

  lemma CallExecuting(rest: Message, answer: Answer)
    requires rest.StartTask? && IsInt32(|answer.result|)
    ensures Reached(1, Called(Executing, rest, answer))
  {
    CallRequested(rest, answer);
    var s, s' := Called(Requested, rest, answer), Called(Executing, rest, answer);
    assert AcceptStep(s, s', 0);
    assert Step(s, s', 1, 0, 0, rest, 0, [], true);
    ReachedNext(1, s, s');
  }

  lemma CallAnswered(rest: Message, answer: Answer)
    requires rest.StartTask? && IsInt32(|answer.result|)
    ensures Reached(1, Called(Answered, rest, answer))
  {
    CallExecuting(rest, answer);
    var s, s' := Called(Executing, rest, answer), Called(Answered, rest, answer);
    assert s.jobs - {0} == map[];
    assert CompleteStep(s, s', 0, answer.status, answer.result);
    assert Step(s, s', 1, 0, 0, rest, answer.status, answer.result, true);
    ReachedNext(1, s, s');
  }

  lemma CallChecked(rest: Message, answer: Answer)
    requires rest.StartTask? && IsInt32(|answer.result|)
    ensures Reached(1, Called(Checked, rest, answer))
  {
    CallAnswered(rest, answer);
    var s, s' := Called(Answered, rest, answer), Called(Checked, rest, answer);
    assert CheckStep(s, s', 1, true);
    assert Step(s, s', 1, 0, 0, rest, 0, [], true);
    ReachedNext(1, s, s');
  }

  /** Whatever a task is started with and whatever the action ends with, there is a run in
      which the action is given just that, and one in which just this is written to the
      task. */
  lemma CallReturns(rest: Message, status: int, result: seq<Byte>)
    requires rest.StartTask? && IsInt32(|result|)
    ensures exists s :: Reached(1, s) && s.asked == map[FIRST := rest] && 0 in s.jobs && s.jobs[0].origin == FIRST
                        && s.jobs[0].domain == rest.domain && s.jobs[0].job == rest.job
                        && s.jobs[0].priority == rest.priority && s.jobs[0].arguments == rest.arguments
    ensures exists s :: Reached(1, s) && s.asked == map[FIRST := rest] && Current(s, FIRST)
                        && s.writes == [Write(FIRST, FIRST, FIRST, status, result)]
  {
    var answer := Answer(status, result);
    CallExecuting(rest, answer);
    CallChecked(rest, answer);
    var s, s' := Called(Checked, rest, answer), Called(Handled, rest, answer);
    assert WriteStep(s, s');
    assert Step(s, s', 1, 0, 0, rest, 0, [], true);
    ReachedNext(1, s, s');
    assert Reached(1, Called(Executing, rest, answer)) && Reached(1, s');
  }

  // ----- the bound on deallocations is needed -----------------------------

  /** A node with one slot that has been deallocated `n` times; one task was started, and
      its request has come as far as `progress` says. */
  function Stage(n: nat, live: map<nat, int>, progress: Progress): State {
    State(live, map[1 := n], [], map[],
          if progress == Answered then [Parcel(ANSWER, FIRST)] else [],
          if progress == Checked then Some(Pending(Parcel(ANSWER, FIRST), FIRST)) else None,
          map[FIRST := 0], map[FIRST := REQUEST], map[FIRST := Answer(0, [])], map[FIRST := progress], [])
  }

  lemma AnsweredReached()
    ensures Reached(1, Stage(0, map[1 := 0], Answered))
  {
    CallAnswered(REQUEST, Answer(0, []));
    assert Called(Answered, REQUEST, Answer(0, [])) == Stage(0, map[1 := 0], Answered);
  }

  /** Retiring the task in the slot. */
  lemma AfterRetiring(n: nat, live: map<nat, int>, progress: Progress)
    requires Reached(1, Stage(n, live, progress)) && live.Keys == {1}
    ensures Reached(1, Stage(n + 1, map[], progress))
  {
    assert live - {1} == map[];
    AfterRetire(1, Stage(n, live, progress), Stage(n + 1, map[], progress), 1);
  }

  lemma AfterAllocating(n: nat, progress: Progress, size: nat)
    requires Reached(1, Stage(n, map[], progress)) && IsInt32(size)
    ensures Reached(1, Stage(n, map[1 := size], progress))
  {
    AfterAllocate(1, Stage(n, map[], progress), Stage(n, map[1 := size], progress), 1, size);
  }

  /** The answer is under way while the slot goes through `n` deallocations. */
  lemma {:induction false} WaitingReached(n: nat)
    requires n > 0
    ensures Reached(1, Stage(n, map[], Answered))
  {
    if n == 1 {
      AnsweredReached();
      AfterRetiring(0, map[1 := 0], Answered);
    } else {
      WaitingReached(n - 1);
      AfterAllocating(n - 1, Answered, 0);
      AfterRetiring(n - 1, map[1 := 0], Answered);
    }
  }

  /** After exactly 2^32 deallocations of its slot the reply passes the check, and a later
      task that never asked for it is found. */
  lemma WrapMisdirects()
    ensures exists s :: Reached(1, s) && s.pending == Some(Pending(Parcel(ANSWER, FIRST), Issue(1, UINT_RANGE)))
                        && Issue(1, UINT_RANGE) !in s.started && 1 in s.live
  {
    var n := UINT_RANGE;
    WaitingReached(n);
    AfterAllocating(n, Answered, 8);
    var s := Stage(n, map[1 := 8], Answered);
    var s' := s.(replies := [], pending := Some(Pending(Parcel(ANSWER, FIRST), Issue(1, n))),
                 progress := map[FIRST := Checked]);
    assert CheckStep(s, s', 1, true);
    assert Step(s, s', 1, 1, 0, ANSWER, 0, [], true);
    ReachedNext(1, s, s');
  }

  lemma CheckedReached()
    ensures Reached(1, Stage(0, map[1 := 0], Checked))
  {
    CallChecked(REQUEST, Answer(0, []));
    assert Called(Checked, REQUEST, Answer(0, [])) == Stage(0, map[1 := 0], Checked);
  }

  /** If the task is retired and its slot reused between check and write, the result is
      written to a later task that never asked for it. */
  lemma RaceMisdirects()
    ensures exists s :: Reached(1, s) && s.writes == [Write(Issue(1, 1), FIRST, FIRST, 0, [])]
                        && Issue(1, 1) !in s.started && 1 in s.live
  {
    CheckedReached();
    AfterRetiring(0, map[1 := 0], Checked);
    AfterAllocating(1, Checked, 8);
    var s := Stage(1, map[1 := 8], Checked);
    var s' := s.(pending := None, progress := map[FIRST := Handled],
                 writes := [Write(Issue(1, 1), FIRST, FIRST, 0, [])]);
    assert WriteStep(s, s');
    assert Step(s, s', 1, 1, 0, ANSWER, 0, [], true);
    ReachedNext(1, s, s');
  }
}

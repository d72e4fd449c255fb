/** The Python worker: one child process at a time behind a mutex, two pipes, and a slot that is
    cleared on every failure and refilled lazily.

    Replies are never compared with the request id, so that a reply answers the caller's own
    request rests on an invariant of the pipes. Launcher and child processes are one step machine:
    between any two launcher steps any process, current or abandoned, may take steps.

    A call's future can be dropped wherever it waits. The mutex is then released and the slot stays
    as it is, with whatever was left in the pipes. */
module Worker {
  import opened Wrappers
  import opened Types

  /** One request line. `caller` and `generation` are history: the wire carries only the rest. */
  datatype Request = Request(caller: nat, generation: nat, id: nat, verb: string, params: Value)

  /** What the process reads as one line: a request, or a request written behind the torn beginning
      of an earlier one, which is no JSON. */
  datatype Input = Whole(request: Request) | Joined(request: Request)

  /** One reply line: the line it answers, and whether it parses as JSON. */
  datatype Line = Line(to: Input, body: Value, parses: bool)

  /** A child process and its pipes. It reads a line, works on it, and writes one line back. `torn`
      says that a line without an end stands behind `stdin`. */
  datatype Process = Process(stdin: seq<Input>, torn: bool, busy: Option<Input>, stdout: seq<Line>, alive: bool)

  const SPAWNED: Process := Process([], false, None, [], true)

  /** What the slot holds: which process, and the next request id. */
  datatype Slot = Slot(generation: nat, nextId: nat)

  datatype CallError = SpawnFailed | Crashed | Timeout | Unparsable | Vanished

  /** Where a call is in `PythonWorker::call`. */
  datatype Phase =
    | Waiting                      // for the mutex
    | Holding                      // the mutex; slot not looked at yet, or a process being spawned
    | Spawned                      // a process is in the slot; writing
    | Sent(request: Request)       // request line written and flushed; reading
    | Done(result: Result<Line, CallError>)

  datatype Call = Call(verb: string, params: Value, phase: Phase)

  datatype State = State(
    holder: Option<nat>,           // which call holds the mutex
    slot: Option<Slot>,
    procs: map<nat, Process>,      // every process ever spawned
    calls: map<nat, Call>,
    dropped: set<nat>,             // history: generations killed or abandoned
    orphaned: set<nat>,            // history: generations whose caller vanished with something in the pipes
    sent: seq<Request>)            // history: every request line fully written

  const INIT: State := State(None, None, map[], map[], {}, {}, [])

  datatype Step =
    | Invoke(c: nat, verb: string, params: Value)
    | Acquire(c: nat)
    | KeepSlot(c: nat)                       // the slot is occupied: use it
    | Spawn(c: nat, generation: nat)         // `spawn_worker` succeeded
    | SpawnFail(c: nat)
    | Write(c: nat)                          // write_all and flush succeeded
    | WriteFail(c: nat, delivered: bool)     // one of them failed; the line may have got through
    | ReadLine(c: nat)                       // read_line returned a line
    | ReadEof(c: nat)
    | ReadError(c: nat)
    | TimeOut(c: nat)
    | Vanish(c: nat)                         // the call's future is dropped, between two lines
    | Tear(c: nat)                           // it is dropped with only the beginning of its request written
    | Nibble(c: nat)                         // it is dropped with only the beginning of its reply read
    | Take(g: nat)                           // the process reads its next request line
    | Answer(g: nat, body: Value, parses: bool)
    | Crash(g: nat)                          // the process exits, for whatever reason

  predicate IsDrop(step: Step) {
    step.Vanish? || step.Tear? || step.Nibble?
  }

  // ---- Guards -------------------------------------------------------------------------------------

  predicate At(s: State, c: nat) {
    c in s.calls && s.holder == Some(c)
  }

  /** There is a process in the slot. */
  predicate Occupied(s: State) {
    s.slot.Some? && s.slot.value.generation in s.procs
  }

  predicate Writing(s: State, c: nat) {
    At(s, c) && s.calls[c].phase.Spawned? && Occupied(s)
  }

  predicate Reading(s: State, c: nat) {
    At(s, c) && s.calls[c].phase.Sent? && Occupied(s)
  }

  function Current(s: State): Process
    requires Occupied(s)
  {
    s.procs[s.slot.value.generation]
  }

  predicate Enabled(s: State, step: Step) {
    match step
    case Invoke(c, _, _) => c !in s.calls
    case Acquire(c) => c in s.calls && s.calls[c].phase.Waiting? && s.holder.None?
    case KeepSlot(c) => At(s, c) && s.calls[c].phase.Holding? && s.slot.Some?
    case Spawn(c, g) => At(s, c) && s.calls[c].phase.Holding? && s.slot.None? && g !in s.procs
    case SpawnFail(c) => At(s, c) && s.calls[c].phase.Holding? && s.slot.None?
    case Write(c) => Writing(s, c)
    case WriteFail(c, _) => Writing(s, c)
    case ReadLine(c) => Reading(s, c) && Current(s).stdout != []
    case ReadEof(c) => Reading(s, c) && Current(s).stdout == [] && !Current(s).alive
    case ReadError(c) => Reading(s, c)
    case TimeOut(c) => Reading(s, c)
    case Vanish(c) => At(s, c)
    case Tear(c) => Writing(s, c)
    case Nibble(c) => Reading(s, c) && Current(s).stdout != []
    case Take(g) => g in s.procs && s.procs[g].alive && s.procs[g].busy.None? && s.procs[g].stdin != []
    case Answer(g, _, _) => g in s.procs && s.procs[g].alive && s.procs[g].busy.Some?
    case Crash(g) => g in s.procs && s.procs[g].alive
  }

  // ---- Effects ------------------------------------------------------------------------------------

  function InPhase(s: State, c: nat, phase: Phase): map<nat, Call>
    requires c in s.calls
  {
    s.calls[c := Call(s.calls[c].verb, s.calls[c].params, phase)]
  }

  /** The call returns and releases the mutex; the slot stays. */
  function Finish(s: State, c: nat, result: Result<Line, CallError>): State
    requires c in s.calls
  {
    State(None, s.slot, s.procs, InPhase(s, c, Done(result)), s.dropped, s.orphaned, s.sent)
  }

  /** The call returns an error and the slot is cleared; dropping the handle kills the process,
      sooner or later. */
  function Abandon(s: State, c: nat, err: CallError): State
    requires c in s.calls && s.slot.Some?
  {
    State(None, None, s.procs, InPhase(s, c, Done(Err(err))), s.dropped + {s.slot.value.generation}, s.orphaned, s.sent)
  }

  function RequestOf(s: State, c: nat): Request
    requires c in s.calls && s.slot.Some?
  {
    Request(c, s.slot.value.generation, s.slot.value.nextId, s.calls[c].verb, s.calls[c].params)
  }

  /** A line ends what was torn before it. */
  function Deliver(p: Process, r: Request): Process {
    Process(p.stdin + [if p.torn then Joined(r) else Whole(r)], false, p.busy, p.stdout, p.alive)
  }

  function ExitOf(p: Process): Process {
    Process([], false, None, p.stdout, false)
  }

  function TakeOf(p: Process): Process
    requires p.stdin != []
  {
    Process(p.stdin[1..], p.torn, Some(p.stdin[0]), p.stdout, true)
  }

  function AnswerOf(p: Process, body: Value, parses: bool): Process
    requires p.busy.Some?
  {
    Process(p.stdin, p.torn, None, p.stdout + [Line(p.busy.value, body, parses)], true)
  }

  function PopOf(p: Process): Process
    requires p.stdout != []
  {
    Process(p.stdin, p.torn, p.busy, p.stdout[1..], p.alive)
  }

  function TornOf(p: Process): Process {
    Process(p.stdin, true, p.busy, p.stdout, p.alive)
  }

  /** The rest of a reply object whose beginning is gone is not JSON. */
  function NibbledOf(p: Process): Process
    requires p.stdout != []
  {
    Process(p.stdin, p.torn, p.busy, [Line(p.stdout[0].to, p.stdout[0].body, false)] + p.stdout[1..], p.alive)
  }

  function WithProc(s: State, g: nat, p: Process): State {
    State(s.holder, s.slot, s.procs[g := p], s.calls, s.dropped, s.orphaned, s.sent)
  }

  function ReadStep(s: State, c: nat): State
    requires Reading(s, c) && Current(s).stdout != []
  {
    var line := Current(s).stdout[0];
    Finish(WithProc(s, s.slot.value.generation, PopOf(Current(s))), c,
           if line.parses then Ok(line) else Err(Unparsable))
  }

  /** The timeout branch kills the child and waits for it before it releases the mutex. */
  function TimeOutStep(s: State, c: nat): State
    requires Reading(s, c)
  {
    Abandon(WithProc(s, s.slot.value.generation, ExitOf(Current(s))), c, Timeout)
  }

  function WriteStep(s: State, c: nat): State
    requires c in s.calls && Occupied(s)
  {
    var g, r := s.slot.value.generation, RequestOf(s, c);
    State(s.holder, Some(Slot(g, s.slot.value.nextId + 1)), s.procs[g := Deliver(Current(s), r)],
          InPhase(s, c, Sent(r)), s.dropped, s.orphaned, s.sent + [r])
  }

  function WriteFailStep(s: State, c: nat, delivered: bool): State
    requires c in s.calls && Occupied(s)
  {
    var r := RequestOf(s, c);
    Abandon(if delivered then WithProc(s, s.slot.value.generation, Deliver(Current(s), r)) else s, c, Crashed)
  }

  /** The caller is gone; `p` is what it leaves in the slot, and `nextId` the id that comes next. */
  function Orphan(s: State, c: nat, p: Process, nextId: nat): State
    requires c in s.calls && s.slot.Some?
  {
    var g := s.slot.value.generation;
    State(None, Some(Slot(g, nextId)), s.procs[g := p], InPhase(s, c, Done(Err(Vanished))), s.dropped,
          s.orphaned + {g}, s.sent)
  }

  /** A future dropped before a byte is written only uses up an id, if it has one already. */
  function VanishStep(s: State, c: nat): State
    requires c in s.calls
  {
    if s.calls[c].phase.Sent? && Occupied(s) then Orphan(s, c, Current(s), s.slot.value.nextId)
    else if s.calls[c].phase.Spawned? && s.slot.Some? then
      State(None, Some(Slot(s.slot.value.generation, s.slot.value.nextId + 1)), s.procs,
            InPhase(s, c, Done(Err(Vanished))), s.dropped, s.orphaned, s.sent)
    else Finish(s, c, Err(Vanished))
  }

  function Apply(s: State, step: Step): State
    requires Enabled(s, step)
  {
    match step
    case Invoke(c, verb, params) =>
      State(s.holder, s.slot, s.procs, s.calls[c := Call(verb, params, Waiting)], s.dropped, s.orphaned, s.sent)
    case Acquire(c) => State(Some(c), s.slot, s.procs, InPhase(s, c, Holding), s.dropped, s.orphaned, s.sent)
    case KeepSlot(c) => State(s.holder, s.slot, s.procs, InPhase(s, c, Spawned), s.dropped, s.orphaned, s.sent)
    case Spawn(c, g) =>
      State(s.holder, Some(Slot(g, 1)), s.procs[g := SPAWNED], InPhase(s, c, Spawned), s.dropped, s.orphaned, s.sent)
    case SpawnFail(c) => Finish(s, c, Err(SpawnFailed))
    case Write(c) => WriteStep(s, c)
    case WriteFail(c, delivered) => WriteFailStep(s, c, delivered)
    case ReadLine(c) => ReadStep(s, c)
    case ReadEof(c) => Abandon(s, c, Crashed)
    case ReadError(c) => Abandon(s, c, Crashed)
    case TimeOut(c) => TimeOutStep(s, c)
    case Vanish(c) => VanishStep(s, c)
    case Tear(c) => Orphan(s, c, TornOf(Current(s)), s.slot.value.nextId + 1)
    case Nibble(c) => Orphan(s, c, NibbledOf(Current(s)), s.slot.value.nextId)
    case Take(g) => WithProc(s, g, TakeOf(s.procs[g]))
    case Answer(g, body, parses) => WithProc(s, g, AnswerOf(s.procs[g], body, parses))
    case Crash(g) => WithProc(s, g, ExitOf(s.procs[g]))
  }

  function After(steps: seq<Step>): Option<State> {
    if steps == [] then Some(INIT)
    else
      match After(steps[..|steps| - 1])
      case None => None
      case Some(s) => if Enabled(s, steps[|steps| - 1]) then Some(Apply(s, steps[|steps| - 1])) else None
  }

  // ---- The pipe invariant -------------------------------------------------------------------------

  /** No request is unanswered and no line unread. */
  predicate Quiet(p: Process) {
    p.stdin == [] && !p.torn && p.busy.None? && p.stdout == []
  }

  /** A dead process that holds no line that could be taken for a reply. */
  predicate Spent(p: Process) {
    !p.alive && forall i :: 0 <= i < |p.stdout| ==> !p.stdout[i].parses
  }

  /** The one outstanding request is in exactly one place: unread, being worked on, answered by the
      one line in the pipe, or lost with the process. */
  predicate Carries(p: Process, r: Request) {
    && !p.torn
    && (|| (p.stdin == [Whole(r)] && p.busy.None? && p.stdout == [])
        || (p.stdin == [] && p.busy == Some(Whole(r)) && p.stdout == [])
        || (p.stdin == [] && p.busy.None? && |p.stdout| == 1 && p.stdout[0].to == Whole(r))
        || (Quiet(p) && !p.alive))
  }

  /** The request the lock holder is waiting for, if it has sent one. */
  function Turn(s: State): Option<Request> {
    if s.holder.Some? && s.holder.value in s.calls && s.calls[s.holder.value].phase.Sent?
    then Some(s.calls[s.holder.value].phase.request) else None
  }

  ghost predicate SlotInv(s: State) {
    s.slot.Some? ==>
      && s.slot.value.generation in s.procs
      && s.slot.value.generation !in s.dropped
      && ((s.slot.value.generation in s.orphaned && Spent(Current(s)))
          || match Turn(s)
             case Some(r) => Carries(Current(s), r) && r.generation == s.slot.value.generation
             case None => Quiet(Current(s)))
  }

  ghost predicate CallInv(s: State, c: nat)
    requires c in s.calls
  {
    var phase := s.calls[c].phase;
    && (s.holder == Some(c) <==> phase.Holding? || phase.Spawned? || phase.Sent?)
    && (phase.Spawned? || phase.Sent? ==> s.slot.Some?)
    && (phase.Sent? ==> SentBy(s, c, phase.request))
    && (phase.Done? && phase.result.Ok? ==> phase.result.value.to.Whole? && SentBy(s, c, phase.result.value.to.request))
  }

  /** The request is one this very call wrote: its own method, its own parameters. */
  ghost predicate SentBy(s: State, c: nat, r: Request)
    requires c in s.calls
  {
    r in s.sent && r.caller == c && r.verb == s.calls[c].verb && r.params == s.calls[c].params
  }

  ghost predicate BelowNext(sent: seq<Request>, slot: Slot) {
    forall i :: 0 <= i < |sent| && sent[i].generation == slot.generation ==> sent[i].id < slot.nextId
  }

  /** Ids count up from 1 within a generation, so no two requests share generation and id. */
  ghost predicate IdInv(s: State) {
    && (forall i :: 0 <= i < |s.sent| ==> s.sent[i].generation in s.procs)
    && (s.slot.Some? ==> BelowNext(s.sent, s.slot.value))
    && (forall i, j :: 0 <= i < j < |s.sent| ==>
        s.sent[i].generation != s.sent[j].generation || s.sent[i].id < s.sent[j].id)
  }

  ghost predicate Inv(s: State) {
    && SlotInv(s) && IdInv(s)
    && (s.holder.Some? ==> s.holder.value in s.calls)
    && (forall c :: c in s.calls ==> CallInv(s, c))
    && (forall g :: g in s.dropped ==> g in s.procs)
  }

  // ---- Which drops are harmless -------------------------------------------------------------------

  /** Something of the request is still to come from the process, or a whole reply is there to be
      misread. */
  predicate Owes(p: Process) {
    (p.alive && !Quiet(p)) || exists i :: 0 <= i < |p.stdout| && p.stdout[i].parses
  }

  /** A drop is harmless before the first byte is written; after that only if the process in the
      slot is dead and, unless the drop itself spoils it, holds no reply that parses. */
  predicate Harmless(s: State, step: Step) {
    match step
    case Vanish(c) => Reading(s, c) ==> !Owes(Current(s))
    case Tear(c) => Writing(s, c) ==> !Current(s).alive
    case Nibble(c) => Reading(s, c) ==> !Current(s).alive
    case _ => true
  }

  // ---- Every step keeps it ------------------------------------------------------------------------

  lemma ProcessKeepsCarries(p: Process, r: Request, body: Value, parses: bool)
    requires Carries(p, r)
    ensures p.alive && p.busy.None? && p.stdin != [] ==> Carries(TakeOf(p), r)
    ensures p.alive && p.busy.Some? ==> Carries(AnswerOf(p, body, parses), r)
    ensures Carries(ExitOf(p), r)
  {
  }

  lemma ProcessStepKeepsInv(s: State, step: Step)
    requires Inv(s) && Enabled(s, step) && (step.Take? || step.Answer? || step.Crash?)
    ensures Inv(Apply(s, step))
  {
    var t := Apply(s, step);
    if s.slot.Some? && Turn(s).Some? && Carries(Current(s), Turn(s).value) {
      ProcessKeepsCarries(Current(s), Turn(s).value, if step.Answer? then step.body else Null,
                          step.Answer? && step.parses);
    }
    assert SlotInv(t);
  }

  lemma LauncherStepKeepsInv(s: State, step: Step)
    requires Inv(s) && Enabled(s, step)
    requires step.Invoke? || step.Acquire? || step.KeepSlot? || step.Spawn? || step.SpawnFail?
    ensures Inv(Apply(s, step))
  {
  }

  /** Every failure after the spawn clears the slot. */
  lemma AbandonKeepsInv(s: State, c: nat, procs: map<nat, Process>, err: CallError)
    requires Inv(s) && At(s, c) && s.slot.Some? && procs.Keys == s.procs.Keys
    ensures Inv(Abandon(State(s.holder, s.slot, procs, s.calls, s.dropped, s.orphaned, s.sent), c, err))
  {
  }

  lemma FailureKeepsInv(s: State, step: Step)
    requires Inv(s) && Enabled(s, step) && (step.WriteFail? || step.ReadEof? || step.ReadError? || step.TimeOut?)
    ensures Inv(Apply(s, step))
  {
    var g := s.slot.value.generation;
    if step.WriteFail? && step.delivered {
      AbandonKeepsInv(s, step.c, s.procs[g := Deliver(Current(s), RequestOf(s, step.c))], Crashed);
    } else if step.TimeOut? {
      AbandonKeepsInv(s, step.c, s.procs[g := ExitOf(Current(s))], Timeout);
    } else {
      AbandonKeepsInv(s, step.c, s.procs, Crashed);
    }
  }

  lemma WriteKeepsInv(s: State, c: nat)
    requires Inv(s) && Enabled(s, Write(c))
    ensures Inv(WriteStep(s, c))
  {
  }

  lemma ReadKeepsInv(s: State, c: nat)
    requires Inv(s) && Enabled(s, ReadLine(c))
    ensures Inv(ReadStep(s, c))
  {
  }

  /** An orphaned process that is spent can stay in the slot. */
  lemma OrphanKeepsInv(s: State, c: nat, p: Process, nextId: nat)
    requires Inv(s) && At(s, c) && s.slot.Some? && Spent(p) && nextId >= s.slot.value.nextId
    ensures Inv(Orphan(s, c, p, nextId))
  {
  }

  lemma DropKeepsInv(s: State, step: Step)
    requires Inv(s) && Enabled(s, step) && IsDrop(step) && Harmless(s, step)
    ensures Inv(Apply(s, step))
  {
    if step.Tear? {
      OrphanKeepsInv(s, step.c, TornOf(Current(s)), s.slot.value.nextId + 1);
    } else if step.Nibble? {
      OrphanKeepsInv(s, step.c, NibbledOf(Current(s)), s.slot.value.nextId);
    } else if s.calls[step.c].phase.Sent? {
      OrphanKeepsInv(s, step.c, Current(s), s.slot.value.nextId);
    }
  }

  lemma StepKeepsInv(s: State, step: Step)
    requires Inv(s) && Enabled(s, step) && Harmless(s, step)
    ensures Inv(Apply(s, step))
  {
    if step.Take? || step.Answer? || step.Crash? {
      ProcessStepKeepsInv(s, step);
    } else if step.Write? {
      WriteKeepsInv(s, step.c);
    } else if step.ReadLine? {
      ReadKeepsInv(s, step.c);
    } else if step.WriteFail? || step.ReadEof? || step.ReadError? || step.TimeOut? {
      FailureKeepsInv(s, step);
    } else if IsDrop(step) {
      DropKeepsInv(s, step);
    } else {
      LauncherStepKeepsInv(s, step);
    }
  }

  /** Every drop of the run is harmless. */
  ghost predicate HarmlessRun(steps: seq<Step>) {
    steps != [] ==>
      && HarmlessRun(steps[..|steps| - 1])
      && (After(steps[..|steps| - 1]).Some? ==> Harmless(After(steps[..|steps| - 1]).value, steps[|steps| - 1]))
  }

  lemma {:induction false} InvHolds(steps: seq<Step>)
    requires After(steps).Some? && HarmlessRun(steps)
    ensures Inv(After(steps).value)
  {
    if steps != [] {
      InvHolds(steps[..|steps| - 1]);
      StepKeepsInv(After(steps[..|steps| - 1]).value, steps[|steps| - 1]);
    }
  }

  // ---- The theorems -------------------------------------------------------------------------------

  /** In every interleaving of callers, processes, timeouts, crashes, respawns and harmless drops: a
      call that succeeds returns a reply to its own request, and that request is the only one of its
      generation with its id. */
  lemma ReplyIsOwn(steps: seq<Step>, c: nat)
    requires After(steps).Some? && HarmlessRun(steps)
    ensures var s := After(steps).value;
      c in s.calls && s.calls[c].phase.Done? && s.calls[c].phase.result.Ok? ==>
        && s.calls[c].phase.result.value.to.Whole?
        && var r := s.calls[c].phase.result.value.to.request;
        && r.caller == c && r.verb == s.calls[c].verb && r.params == s.calls[c].params
        && r in s.sent
        && forall q :: q in s.sent && q.generation == r.generation && q.id == r.id ==> q == r
  {
    InvHolds(steps);
    var s := After(steps).value;
    if c in s.calls && s.calls[c].phase.Done? && s.calls[c].phase.result.Ok? {
      assert CallInv(s, c);
      IdsAreUnique(s, s.calls[c].phase.result.value.to.request);
    }
  }

  lemma IdsAreUnique(s: State, r: Request)
    requires IdInv(s) && r in s.sent
    ensures forall q :: q in s.sent && q.generation == r.generation && q.id == r.id ==> q == r
  {
    forall q | q in s.sent && q.generation == r.generation && q.id == r.id ensures q == r {
      var i :| 0 <= i < |s.sent| && s.sent[i] == r;
      var j :| 0 <= j < |s.sent| && s.sent[j] == q;
      assert i == j;
    }
  }

  /** Whenever the mutex is free, a live process in the slot owes nothing and holds nothing; a dead
      one does too, unless a caller vanished on it, and even then it holds no line that parses. */
  lemma FreeMeansQuiet(steps: seq<Step>)
    requires After(steps).Some? && HarmlessRun(steps)
    ensures var s := After(steps).value;
      s.holder.None? && s.slot.Some? ==>
        && s.slot.value.generation in s.procs && s.slot.value.generation !in s.dropped
        && (Current(s).alive || s.slot.value.generation !in s.orphaned ==> Quiet(Current(s)))
        && !Owes(Current(s))
  {
    InvHolds(steps);
  }

  /** The future is dropped with something of its request or reply in the pipes. */
  predicate Orphans(s: State, step: Step) {
    step.Tear? || step.Nibble? || (step.Vanish? && Reading(s, step.c))
  }

  /** No future is dropped once it has begun to write. */
  ghost predicate WaitedFor(steps: seq<Step>) {
    steps != [] ==>
      && WaitedFor(steps[..|steps| - 1])
      && (After(steps[..|steps| - 1]).Some? ==> !Orphans(After(steps[..|steps| - 1]).value, steps[|steps| - 1]))
  }

  /** Such a run is harmless, and no process in it is orphaned: the statements above and below then
      hold of it without exception. */
  lemma {:induction false} WaitingIsHarmless(steps: seq<Step>)
    requires After(steps).Some? && WaitedFor(steps)
    ensures HarmlessRun(steps) && After(steps).value.orphaned == {}
  {
    if steps != [] {
      WaitingIsHarmless(steps[..|steps| - 1]);
    }
  }

  /** No line of a killed or abandoned process is ever read, nor one that answers somebody else: the
      line a reader finds comes from the process in the slot, and if it can be taken for a reply at
      all, it is the only line and answers the request the reader waits for. */
  lemma OnlyLiveGenerationsAreRead(steps: seq<Step>, c: nat)
    requires After(steps).Some? && HarmlessRun(steps)
    requires Enabled(After(steps).value, ReadLine(c))
    ensures var s := After(steps).value;
      && s.slot.value.generation !in s.dropped
      && (s.slot.value.generation !in s.orphaned || Current(s).stdout[0].parses ==>
            && |Current(s).stdout| == 1
            && Current(s).stdout[0].to == Whole(s.calls[c].phase.request)
            && Current(s).stdout[0].to.request.generation == s.slot.value.generation)
  {
    InvHolds(steps);
    assert CallInv(After(steps).value, c);
  }

  // ---- The condition on drops is exact ------------------------------------------------------------

  /** The call got a reply to something other than its own request. */
  predicate Misled(s: State, c: nat) {
    && c in s.calls && s.calls[c].phase.Done? && s.calls[c].phase.result.Ok?
    && var to := s.calls[c].phase.result.value.to;
    && !(to.Whole? && to.request.caller == c)
  }

  predicate NoDrops(steps: seq<Step>) {
    forall i :: 0 <= i < |steps| ==> !IsDrop(steps[i])
  }

  /** The state some further steps lead to. */
  function Follow(s: State, steps: seq<Step>): Option<State>
    decreases |steps|
  {
    if steps == [] then Some(s)
    else if Enabled(s, steps[0]) then Follow(Apply(s, steps[0]), steps[1..])
    else None
  }

  /** These steps, none of them a drop, mislead call `c`. */
  ghost predicate Misleads(s: State, steps: seq<Step>, c: nat) {
    NoDrops(steps) && Follow(s, steps).Some? && Misled(Follow(s, steps).value, c)
  }

  ghost predicate CanMislead(s: State) {
    exists steps, c :: Misleads(s, steps, c)
  }

  lemma {:induction false} KeptWhileFollowed(s: State, steps: seq<Step>)
    requires Inv(s) && NoDrops(steps) && Follow(s, steps).Some?
    ensures Inv(Follow(s, steps).value)
    decreases |steps|
  {
    if steps != [] {
      assert !IsDrop(steps[0]);
      StepKeepsInv(s, steps[0]);
      assert forall i :: 0 <= i < |steps[1..]| ==> steps[1..][i] == steps[i + 1];
      KeptWhileFollowed(Apply(s, steps[0]), steps[1..]);
    }
  }

  lemma InvMeansNobodyIsMisled(s: State)
    requires Inv(s)
    ensures !CanMislead(s)
  {
    forall steps, c ensures !Misleads(s, steps, c) {
      if NoDrops(steps) && Follow(s, steps).Some? {
        KeptWhileFollowed(s, steps);
        var t := Follow(s, steps).value;
        assert c in t.calls ==> CallInv(t, c);
      }
    }
  }

  /** Who can be misled after a step can be misled before it. */
  lemma StepBack(s: State, step: Step)
    requires Enabled(s, step) && !IsDrop(step)
    ensures CanMislead(Apply(s, step)) ==> CanMislead(s)
  {
    if CanMislead(Apply(s, step)) {
      var steps, c :| Misleads(Apply(s, step), steps, c);
      assert ([step] + steps)[1..] == steps;
      assert Misleads(s, [step] + steps, c);
    }
  }

  lemma AlreadyMisled(s: State, c: nat)
    requires Misled(s, c)
    ensures CanMislead(s)
  {
    assert Follow(s, []) == Some(s);
    assert Misleads(s, [], c);
  }

  /** The mutex is free and a process is in the slot. */
  predicate Open(s: State) {
    s.holder.None? && Occupied(s)
  }

  /** The state after a new call `d` has sent its request. */
  function Joining(s: State, d: nat): State
    requires Open(s)
  {
    var g, n := s.slot.value.generation, s.slot.value.nextId;
    var r := Request(d, g, n, "", Null);
    State(Some(d), Some(Slot(g, n + 1)), s.procs[g := Deliver(Current(s), r)], s.calls[d := Call("", Null, Sent(r))],
          s.dropped, s.orphaned, s.sent + [r])
  }

  lemma NewCall(s: State, d: nat)
    requires Open(s) && d !in s.calls
    ensures CanMislead(Joining(s, d)) ==> CanMislead(s)
  {
    var s1 := Apply(s, Invoke(d, "", Null));
    var s2 := Apply(s1, Acquire(d));
    var s3 := Apply(s2, KeepSlot(d));
    assert Apply(s3, Write(d)) == Joining(s, d) by {
      assert InPhase(s3, d, Sent(RequestOf(s3, d))) == s.calls[d := Call("", Null, Sent(RequestOf(s3, d)))];
    }
    StepBack(s3, Write(d));
    StepBack(s2, KeepSlot(d));
    StepBack(s1, Acquire(d));
    StepBack(s, Invoke(d, "", Null));
  }

  /** A number no call has. */
  lemma {:induction false} Unused(used: set<nat>) returns (n: nat)
    ensures forall k :: k in used ==> k < n
    decreases |used|
  {
    n := 0;
    if used != {} {
      var k :| k in used;
      n := Unused(used - {k});
      assert used == (used - {k}) + {k};
      if n <= k {
        n := k + 1;
      }
    }
  }

  /** The author of what a line answers is known. */
  predicate Known(s: State, i: Input) {
    i.request.caller in s.calls
  }

  /** The next caller reads a line that was there before it came. */
  lemma StaleLineMisleads(s: State)
    requires Open(s) && Current(s).stdout != [] && Current(s).stdout[0].parses && Known(s, Current(s).stdout[0].to)
    ensures CanMislead(s)
  {
    var d := Unused(s.calls.Keys);
    var t := Joining(s, d);
    assert Current(t).stdout == Current(s).stdout;
    AlreadyMisled(Apply(t, ReadLine(d)), d);
    StepBack(t, ReadLine(d));
    NewCall(s, d);
  }

  /** A live process that works on a request will answer it. */
  lemma BusyMisleads(s: State)
    requires Open(s) && Current(s).alive && Current(s).busy.Some? && Known(s, Current(s).busy.value)
    requires Current(s).stdout == []
    ensures CanMislead(s)
  {
    var step := Answer(s.slot.value.generation, Null, true);
    StaleLineMisleads(Apply(s, step));
    StepBack(s, step);
  }

  lemma UnreadMisleads(s: State)
    requires Open(s) && Current(s).alive && Current(s).busy.None? && Current(s).stdout == []
    requires Current(s).stdin != [] && Known(s, Current(s).stdin[0])
    ensures CanMislead(s)
  {
    var step := Take(s.slot.value.generation);
    BusyMisleads(Apply(s, step));
    StepBack(s, step);
  }

  /** The next caller takes what is left of a reply for its own, and leaves its own to the one after. */
  lemma GarbageMisleads(s: State)
    requires Open(s) && Current(s).alive && Current(s).busy.None? && Current(s).stdin == []
    requires |Current(s).stdout| == 1 && !Current(s).stdout[0].parses
    ensures CanMislead(s)
  {
    var d := Unused(s.calls.Keys);
    var t := Joining(s, d);
    UnreadMisleads(Apply(t, ReadLine(d)));
    StepBack(t, ReadLine(d));
    NewCall(s, d);
  }

  /** The next request is joined to the torn one, and its caller gets the answer to both. */
  lemma TornMisleads(s: State)
    requires Open(s) && Current(s).alive && Current(s).torn && Current(s).busy.None?
    requires Current(s).stdin == [] && Current(s).stdout == []
    ensures CanMislead(s)
  {
    var d := Unused(s.calls.Keys);
    var g, t := s.slot.value.generation, Joining(s, d);
    assert Current(t).stdin == [Joined(t.calls[d].phase.request)];
    var t1 := Apply(t, Take(g));
    var t2 := Apply(t1, Answer(g, Null, true));
    AlreadyMisled(Apply(t2, ReadLine(d)), d);
    StepBack(t2, ReadLine(d));
    StepBack(t1, Answer(g, Null, true));
    StepBack(t, Take(g));
    NewCall(s, d);
  }

  lemma HarmlessDropMisleadsNobody(s: State, step: Step)
    requires Inv(s) && Enabled(s, step) && IsDrop(step) && Harmless(s, step)
    ensures !CanMislead(Apply(s, step))
  {
    DropKeepsInv(s, step);
    InvMeansNobodyIsMisled(Apply(s, step));
  }

  lemma VanishMisleads(s: State, c: nat)
    requires Inv(s) && Reading(s, c) && Owes(Current(s))
    ensures CanMislead(VanishStep(s, c))
  {
    var p, r, t := Current(s), s.calls[c].phase.request, VanishStep(s, c);
    assert CallInv(s, c) && Turn(s) == Some(r) && Carries(p, r) && Current(t) == p;
    if p.stdin != [] {
      UnreadMisleads(t);
    } else if p.busy.Some? {
      BusyMisleads(t);
    } else if p.stdout[0].parses {
      StaleLineMisleads(t);
    } else {
      GarbageMisleads(t);
    }
  }

  lemma TearMisleads(s: State, c: nat)
    requires Inv(s) && Writing(s, c) && Current(s).alive
    ensures CanMislead(Apply(s, Tear(c)))
  {
    assert Turn(s) == None && Quiet(Current(s));
    TornMisleads(Apply(s, Tear(c)));
  }

  lemma NibbleMisleads(s: State, c: nat)
    requires Inv(s) && Enabled(s, Nibble(c)) && Current(s).alive
    ensures CanMislead(Apply(s, Nibble(c)))
  {
    assert Carries(Current(s), s.calls[c].phase.request);
    GarbageMisleads(Apply(s, Nibble(c)));
  }

  /** Wherever a run without earlier harm drops a future, some caller can come to be handed a reply
      that is not its own if and only if the drop is not harmless, and that is decided by the phase
      of the call and the process in the slot alone. */
  lemma DropMisleadsIff(steps: seq<Step>, drop: Step)
    requires After(steps).Some? && HarmlessRun(steps)
    requires Enabled(After(steps).value, drop) && IsDrop(drop)
    ensures CanMislead(Apply(After(steps).value, drop)) <==> !Harmless(After(steps).value, drop)
  {
    var s := After(steps).value;
    InvHolds(steps);
    if Harmless(s, drop) {
      HarmlessDropMisleadsNobody(s, drop);
    } else if drop.Vanish? {
      VanishMisleads(s, drop.c);
    } else if drop.Tear? {
      TearMisleads(s, drop.c);
    } else {
      NibbleMisleads(s, drop.c);
    }
  }

  /** Call 0 is the only one that is ever dropped. */
  predicate OnlyFirstDrops(steps: seq<Step>) {
    forall i :: 0 <= i < |steps| && IsDrop(steps[i]) ==> steps[i] == Vanish(0)
  }

  lemma OneMore(steps: seq<Step>, s: State, step: Step) returns (more: seq<Step>, t: State)
    requires After(steps) == Some(s) && Enabled(s, step)
    requires OnlyFirstDrops(steps) && (IsDrop(step) ==> step == Vanish(0))
    ensures t == Apply(s, step) && After(more) == Some(t) && OnlyFirstDrops(more)
  {
    more, t := steps + [step], Apply(s, step);
    assert more[..|more| - 1] == steps;
  }

  const FIRST: Request := Request(0, 0, 1, "exec", Null)

  function Exec(phase: Phase): Call {
    Call("exec", Null, phase)
  }

  /** Process 0 is alive in the slot, at work as given, and its calls stand where `calls` says. */
  ghost predicate Scene(s: State, holder: Option<nat>, nextId: nat, stdin: seq<Input>, busy: Option<Input>,
                        stdout: seq<Line>, calls: map<nat, Call>)
  {
    && s.holder == holder && s.slot == Some(Slot(0, nextId)) && 0 in s.procs && s.calls == calls
    && s.procs[0].alive && !s.procs[0].torn
    && s.procs[0].stdin == stdin && s.procs[0].busy == busy && s.procs[0].stdout == stdout
  }

  const GONE: Call := Exec(Done(Err(Vanished)))

  lemma FirstSpawns() returns (steps: seq<Step>, s: State)
    ensures After(steps) == Some(s) && OnlyFirstDrops(steps)
    ensures Scene(s, Some(0), 1, [], None, [], map[0 := Exec(Spawned)])
  {
    steps, s := [], INIT;
    steps, s := OneMore(steps, s, Invoke(0, "exec", Null));
    steps, s := OneMore(steps, s, Acquire(0));
    steps, s := OneMore(steps, s, Spawn(0, 0));
  }

  lemma FirstIsTaken() returns (steps: seq<Step>, s: State)
    ensures After(steps) == Some(s) && OnlyFirstDrops(steps)
    ensures Scene(s, Some(0), 2, [], Some(Whole(FIRST)), [], map[0 := Exec(Sent(FIRST))])
  {
    steps, s := FirstSpawns();
    steps, s := OneMore(steps, s, Write(0));
    assert s.procs[0].stdin == [Whole(FIRST)];
    steps, s := OneMore(steps, s, Take(0));
  }

  lemma FirstVanishes() returns (steps: seq<Step>, s: State)
    ensures After(steps) == Some(s) && OnlyFirstDrops(steps)
    ensures Scene(s, None, 2, [], None, [Line(Whole(FIRST), Null, true)], map[0 := GONE])
  {
    steps, s := FirstIsTaken();
    steps, s := OneMore(steps, s, Vanish(0));
    steps, s := OneMore(steps, s, Answer(0, Null, true));
  }

  lemma SecondComes() returns (steps: seq<Step>, s: State)
    ensures After(steps) == Some(s) && OnlyFirstDrops(steps)
    ensures Scene(s, Some(1), 2, [], None, [Line(Whole(FIRST), Null, true)], map[0 := GONE, 1 := Exec(Spawned)])
  {
    steps, s := FirstVanishes();
    steps, s := OneMore(steps, s, Invoke(1, "exec", Null));
    steps, s := OneMore(steps, s, Acquire(1));
    steps, s := OneMore(steps, s, KeepSlot(1));
  }

  /** A run from the start: call 0 is dropped while its snippet runs and nobody else is there; call 1
      comes later and gets the reply meant for call 0. */
  lemma MisleadingRun() returns (steps: seq<Step>)
    ensures After(steps).Some? && OnlyFirstDrops(steps) && Misled(After(steps).value, 1)
    ensures After(steps).value.calls[1].phase.result.value.to == Whole(FIRST)
  {
    var s;
    steps, s := SecondComes();
    steps, s := OneMore(steps, s, Write(1));
    steps, s := OneMore(steps, s, ReadLine(1));
  }
}

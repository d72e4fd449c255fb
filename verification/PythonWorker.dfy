/** `PythonWorker::call` and `spawn_worker`, as the loop and slot updates they are.

    `Call` is the code of one call while no other call holds the mutex. The state it leaves is a
    state of the machine of `Worker`, so the pipe invariant proved there holds at its ends. */
module PythonWorker {
  import opened Wrappers
  import opened Types
  import opened Worker

  /** What a process does in one go, if it can. */
  datatype Work = TakeOne | AnswerOne(body: Value, parses: bool) | Exit

  /** What the outside does during one call: whether each interpreter starts, and as which process;
      whether the write and the flush succeed, and if not, whether the line got through all the
      same; what the process does before the read ends; whether the read itself fails. */
  datatype Io = Io(tries: seq<Option<nat>>, wrote: bool, flushed: bool, delivered: bool, work: seq<Work>,
                   readFails: bool)

  ghost predicate Reached(s: State) {
    exists steps :: After(steps) == Some(s) && WaitedFor(steps)
  }

  lemma ReachedNext(s: State, step: Step)
    requires Reached(s) && Enabled(s, step) && !Orphans(s, step)
    ensures Reached(Apply(s, step))
  {
    var steps :| After(steps) == Some(s) && WaitedFor(steps);
    assert (steps + [step])[..|steps + [step]| - 1] == steps;
    assert After(steps + [step]) == Some(Apply(s, step));
  }

  lemma ReachedInv(s: State)
    requires Reached(s)
    ensures Inv(s) && s.orphaned == {}
  {
    var steps :| After(steps) == Some(s) && WaitedFor(steps);
    WaitingIsHarmless(steps);
    InvHolds(steps);
  }

  /** `spawn_worker`: the first interpreter that starts. */
  method SpawnWorker(tries: seq<Option<nat>>) returns (r: Option<nat>)
    ensures r.None? <==> forall i :: 0 <= i < |tries| ==> tries[i].None?
    ensures r.Some? ==> exists i :: 0 <= i < |tries| && tries[i] == r && forall j :: 0 <= j < i ==> tries[j].None?
  {
    for i := 0 to |tries|
      invariant forall j :: 0 <= j < i ==> tries[j].None?
    {
      if tries[i].Some? {
        return tries[i];
      }
    }
    return None;
  }

  class PythonWorker {
    var slot: Option<Slot>
    var pipe: Process              // the process in the slot
    ghost var state: State

    constructor ()
      ensures Valid() && slot.None? && state == INIT
    {
      slot, pipe, state := None, SPAWNED, INIT;
      new;
      assert After([]) == Some(INIT);
    }

    /** No call holds the mutex. */
    ghost predicate Valid()
      reads this
    {
      Attached() && state.holder.None?
    }

    ghost predicate Attached()
      reads this
    {
      && Reached(state) && slot == state.slot
      && (slot.Some? ==> slot.value.generation in state.procs && state.procs[slot.value.generation] == pipe)
    }

    ghost method Do(step: Step)
      requires Reached(state) && Enabled(state, step) && !IsDrop(step)
      modifies this`state
      ensures Reached(state) && state == Apply(old(state), step)
    {
      ReachedNext(state, step);
      state := Apply(state, step);
    }

    /** The process in the slot runs for a while. */
    method LetRun(work: seq<Work>)
      requires Attached() && slot.Some?
      modifies this`pipe, this`state
      ensures Attached()
      ensures state.calls == old(state.calls) && state.holder == old(state.holder)
    {
      var g := slot.value.generation;
      for i := 0 to |work|
        invariant Attached() && g in state.procs
        invariant state.calls == old(state.calls) && state.holder == old(state.holder)
      {
        if work[i].TakeOne? && pipe.alive && pipe.busy.None? && pipe.stdin != [] {
          Do(Take(g));
          pipe := TakeOf(pipe);
        } else if work[i].AnswerOne? && pipe.alive && pipe.busy.Some? {
          Do(Answer(g, work[i].body, work[i].parses));
          pipe := AnswerOf(pipe, work[i].body, work[i].parses);
        } else if work[i].Exit? && pipe.alive {
          Do(Crash(g));
          pipe := ExitOf(pipe);
        }
      }
    }

    /** The call has the mutex and stands at `phase`. */
    ghost predicate Holds(c: nat, verb: string, params: Value, phase: Phase)
      reads this
    {
      Attached() && state.holder == Some(c) && c in state.calls && state.calls[c] == Worker.Call(verb, params, phase)
    }

    /** The call has returned `r` and released the mutex. */
    ghost predicate Returned(c: nat, verb: string, params: Value, r: Result<Line, CallError>)
      reads this
    {
      && Valid() && c in state.calls && state.calls[c] == Worker.Call(verb, params, Done(r))
      && (r.Err? && r.error != Unparsable ==> slot.None?)
    }

    /** Takes the mutex. */
    ghost method Lock(c: nat, verb: string, params: Value)
      requires Valid() && c !in state.calls
      modifies this`state
      ensures Holds(c, verb, params, Holding)
      ensures state.calls.Keys == old(state.calls).Keys + {c} && state.procs == old(state.procs)
    {
      Do(Invoke(c, verb, params));
      Do(Acquire(c));
    }

    /** Takes the mutex and makes sure that there is a process. */
    method Ready(c: nat, verb: string, params: Value, tries: seq<Option<nat>>) returns (ok: bool)
      requires Valid() && c !in state.calls
      requires forall i :: 0 <= i < |tries| && tries[i].Some? ==> tries[i].value !in state.procs
      modifies this
      ensures state.calls.Keys == old(state.calls).Keys + {c}
      ensures ok <==> old(slot).Some? || exists i :: 0 <= i < |tries| && tries[i].Some?
      ensures old(slot).Some? ==> slot == old(slot)
      ensures old(slot).None? && ok ==> slot.Some? && slot.value.nextId == 1
      ensures ok ==> slot.Some? && Holds(c, verb, params, Spawned)
      ensures !ok ==> Returned(c, verb, params, Err(SpawnFailed))
    {
      Lock(c, verb, params);
      if slot.None? {
        var spawned := SpawnWorker(tries);
        if spawned.None? {
          Do(SpawnFail(c));
          return false;
        }
        Do(Spawn(c, spawned.value));
        slot, pipe := Some(Slot(spawned.value, 1)), SPAWNED;
      } else {
        Do(KeepSlot(c));
      }
      return true;
    }

    /** Numbers the request and writes its line. */
    method Send(c: nat, verb: string, params: Value, io: Io) returns (ok: bool)
      requires slot.Some? && Holds(c, verb, params, Spawned)
      modifies this
      ensures state.calls.Keys == old(state.calls).Keys
      ensures ok <==> io.wrote && io.flushed
      ensures slot == if ok then Some(Slot(old(slot).value.generation, old(slot).value.nextId + 1)) else None
      ensures ok ==> exists r :: Holds(c, verb, params, Sent(r))
      ensures !ok ==> Returned(c, verb, params, Err(Crashed))
    {
      var request := Request(c, slot.value.generation, slot.value.nextId, verb, params);
      if !io.wrote || !io.flushed {
        Do(WriteFail(c, io.delivered));
        slot := None;
        return false;
      }
      Do(Write(c));
      slot := Some(Slot(slot.value.generation, slot.value.nextId + 1));
      pipe := Deliver(pipe, request);
      assert Holds(c, verb, params, Sent(request));
      return true;
    }

    /** Reads one line, or fails, or gives up. */
    method Receive(c: nat, verb: string, params: Value, readFails: bool) returns (r: Result<Line, CallError>)
      requires slot.Some? && exists q :: Holds(c, verb, params, Sent(q))
      modifies this
      ensures state.calls.Keys == old(state.calls).Keys
      ensures Returned(c, verb, params, r)
      ensures r == if readFails then Err(Crashed)
                   else if old(pipe).stdout != [] then
                     (if old(pipe).stdout[0].parses then Ok(old(pipe).stdout[0]) else Err(Unparsable))
                   else if old(pipe).alive then Err(Timeout)
                   else Err(Crashed)
      ensures slot == if r.Ok? || r.error == Unparsable then old(slot) else None
    {
      if readFails {
        Do(ReadError(c));
        slot, r := None, Err(Crashed);
      } else if pipe.stdout != [] {
        var line := pipe.stdout[0];
        Do(ReadLine(c));
        pipe := PopOf(pipe);
        r := if line.parses then Ok(line) else Err(Unparsable);
      } else if !pipe.alive {
        Do(ReadEof(c));
        slot, r := None, Err(Crashed);
      } else {
        Do(TimeOut(c));
        slot, r := None, Err(Timeout);
      }
    }

    /** `call`, under the mutex from the first line to the last. */
    method Call(c: nat, verb: string, params: Value, io: Io) returns (r: Result<Line, CallError>)
      requires Valid() && c !in state.calls
      requires forall i :: 0 <= i < |io.tries| && io.tries[i].Some? ==> io.tries[i].value !in state.procs
      modifies this
      ensures Returned(c, verb, params, r) && state.calls.Keys == old(state.calls).Keys + {c}
      ensures r == Err(SpawnFailed) <==> old(slot).None? && forall i :: 0 <= i < |io.tries| ==> io.tries[i].None?
      ensures slot.Some? <==> r.Ok? || r.error == Unparsable
      ensures r.Ok? ==> r.value.to.Whole?
      ensures r.Ok? ==> var q := r.value.to.request; q.caller == c && q.verb == verb && q.params == params
      ensures slot.Some? ==> Quiet(pipe)
    {
      var ok := Ready(c, verb, params, io.tries);
      if !ok {
        r := Err(SpawnFailed);
      } else {
        ok := Send(c, verb, params, io);
        if !ok {
          r := Err(Crashed);
        } else {
          LetRun(io.work);
          r := Receive(c, verb, params, io.readFails);
        }
      }
      OwnReply(state, c);
    }
  }

  /** What the pipe invariant says once a call has returned. */
  lemma OwnReply(s: State, c: nat)
    requires Reached(s) && s.holder.None? && c in s.calls && s.calls[c].phase.Done?
    ensures var call := s.calls[c];
      call.phase.result.Ok? ==>
        && call.phase.result.value.to.Whole?
        && var q := call.phase.result.value.to.request;
        && q.caller == c && q.verb == call.verb && q.params == call.params
    ensures s.slot.Some? ==> s.slot.value.generation in s.procs && Quiet(Current(s))
  {
    ReachedInv(s);
    assert CallInv(s, c);
  }
}

/** The console's key store and the mutex before it: callers queue up in the order they called, and each
    reads, writes the file and takes the result over, alone. */
module KeyStore {
  import opened Wrappers

  type Keys = map<string, string>

  datatype Op = Set(id: string, key: string) | Remove(id: string)

  function Applied(keys: Keys, op: Op): Keys {
    match op
    case Set(id, key) => keys[id := key]
    case Remove(id) => keys - {id}
  }

  function Lookup(keys: Keys, id: string): Option<string> {
    if id in keys then Some(keys[id]) else None
  }

  /** A removal of what is not there writes nothing. */
  predicate Writes(keys: Keys, op: Op) {
    op.Remove? ==> op.id in keys
  }

  class KeyStore {
    var state: Keys
    var file: Keys

    constructor (file: Keys)
      ensures this.file == file && state == file
    {
      this.file, state := file, file;
    }

    /** Replaces the file as a whole, or leaves it. */
    method Persist(next: Keys, lands: bool)
      modifies this`file
      ensures file == if lands then next else old(file)
    {
      if lands {
        file := next;
      }
    }

    method Update(op: Op, lands: bool) returns (ok: bool)
      requires state == file
      modifies this
      ensures ok == (lands || !Writes(old(state), op))
      ensures state == file == if ok then Applied(old(state), op) else old(state)
    {
      if op.Remove? && op.id !in state {
        assert state - {op.id} == state;
        return true;
      }
      var next := match op case Set(id, key) => state[id := key] case Remove(id) => state - {id};
      Persist(next, lands);
      if !lands {
        return false;
      }
      state := next;
      ok := true;
    }

    method Get(id: string) returns (key: Option<string>)
      ensures key == Lookup(state, id)
    {
      key := if id in state then Some(state[id]) else None;
    }
  }

  // ---------------------------------------------------------------------------------------------
  // Concurrent callers
  // ---------------------------------------------------------------------------------------------

  /** `Landed`: the file is replaced, the memory not yet. */
  datatype Phase = Queued | Writing(next: Keys) | Landed(next: Keys) | Settled(ok: bool)

  datatype Caller = Caller(op: Op, phase: Phase)

  datatype World = World(memory: Keys, file: Keys, callers: seq<Caller>)

  datatype Event = Call(op: Op) | Begin(caller: nat) | Lands(caller: nat) | Fails(caller: nat) | TakesOver(caller: nat)

  function SetPhase(w: World, i: nat, phase: Phase): seq<Caller>
    requires i < |w.callers|
  {
    w.callers[i := w.callers[i].(phase := phase)]
  }

  /** `runExclusive` waits for the one call before it, which waited for the one before that. */
  predicate MayBegin(w: World, i: nat) {
    i < |w.callers| && w.callers[i].phase.Queued? && (i > 0 ==> w.callers[i - 1].phase.Settled?)
  }

  function Begun(w: World, i: nat): World
    requires i < |w.callers|
  {
    var op := w.callers[i].op;
    w.(callers := SetPhase(w, i, if Writes(w.memory, op) then Writing(Applied(w.memory, op)) else Settled(true)))
  }

  function Step(w: World, e: Event): World {
    match e
    case Call(op) => w.(callers := w.callers + [Caller(op, Queued)])
    case Begin(i) => if MayBegin(w, i) then Begun(w, i) else w
    case Lands(i) =>
      if i < |w.callers| && w.callers[i].phase.Writing? then
        w.(file := w.callers[i].phase.next, callers := SetPhase(w, i, Landed(w.callers[i].phase.next)))
      else w
    case Fails(i) =>
      if i < |w.callers| && w.callers[i].phase.Writing? then w.(callers := SetPhase(w, i, Settled(false))) else w
    case TakesOver(i) =>
      if i < |w.callers| && w.callers[i].phase.Landed? then
        w.(memory := w.callers[i].phase.next, callers := SetPhase(w, i, Settled(true)))
      else w
  }

  function Run(w: World, events: seq<Event>): World
    decreases |events|
  {
    if events == [] then w else Run(Step(w, events[0]), events[1..])
  }

  /** What the calls that succeeded make of it, one after another in the order they were made. */
  function Outcome(initial: Keys, callers: seq<Caller>): Keys {
    if callers == [] then initial
    else
      var before := Outcome(initial, callers[..|callers| - 1]);
      var last := callers[|callers| - 1];
      if last.phase == Settled(true) then Applied(before, last.op) else before
  }

  predicate Inside(c: Caller) {
    c.phase.Writing? || c.phase.Landed?
  }

  /** The calls before `done` have settled, the one at `done` may be inside, the ones after it wait. */
  ghost predicate InTurn(w: World, initial: Keys, done: nat) {
    && done <= |w.callers|
    && (forall i :: 0 <= i < done ==> w.callers[i].phase.Settled?)
    && (forall i :: done < i < |w.callers| ==> w.callers[i].phase.Queued?)
    && w.memory == Outcome(initial, w.callers[..done])
    && (done < |w.callers| ==> !w.callers[done].phase.Settled?)
    && (done < |w.callers| && Inside(w.callers[done]) ==> w.callers[done].phase.next == Applied(w.memory, w.callers[done].op))
    && w.file == if done < |w.callers| && w.callers[done].phase.Landed? then w.callers[done].phase.next else w.memory
  }

  lemma SettlingKeeps(w: World, u: World, initial: Keys, done: nat, ok: bool)
    requires InTurn(w, initial, done) && done < |w.callers|
    requires u.callers == SetPhase(w, done, Settled(ok)) && u.file == u.memory
    requires u.memory == if ok then Applied(w.memory, w.callers[done].op) else w.memory
    ensures InTurn(u, initial, done + 1)
  {
    assert u.callers[..done + 1][..done] == w.callers[..done];
  }

  lemma StepKeepsTurn(w: World, initial: Keys, done: nat, e: Event)
    requires InTurn(w, initial, done)
    ensures InTurn(Step(w, e), initial, done) || InTurn(Step(w, e), initial, done + 1)
  {
    var u := Step(w, e);
    match e
    case Call(op) =>
      assert u.callers[..done] == w.callers[..done];
    case Begin(i) =>
      if MayBegin(w, i) {
        assert i == done;
        if Writes(w.memory, w.callers[i].op) {
          assert u.callers[..done] == w.callers[..done];
        } else {
          assert w.memory - {w.callers[i].op.id} == w.memory;
          SettlingKeeps(w, u, initial, done, true);
        }
      }
    case Lands(i) =>
      if u != w {
        assert i == done;
        assert u.callers[..done] == w.callers[..done];
      }
    case Fails(i) =>
      if i < |w.callers| && w.callers[i].phase.Writing? { SettlingKeeps(w, u, initial, done, false); }
    case TakesOver(i) =>
      if i < |w.callers| && w.callers[i].phase.Landed? { SettlingKeeps(w, u, initial, done, true); }
  }

  lemma {:induction false} RunKeepsTurn(w: World, initial: Keys, done: nat, events: seq<Event>) returns (after: nat)
    requires InTurn(w, initial, done)
    ensures InTurn(Run(w, events), initial, after)
    decreases |events|
  {
    after := done;
    if events != [] {
      StepKeepsTurn(w, initial, done, events[0]);
      var next := if InTurn(Step(w, events[0]), initial, done) then done else done + 1;
      after := RunKeepsTurn(Step(w, events[0]), initial, next, events[1..]);
    }
  }

  lemma {:induction false} WaitingAddsNothing(initial: Keys, callers: seq<Caller>, done: nat)
    requires done <= |callers|
    requires forall i :: done <= i < |callers| ==> !callers[i].phase.Settled?
    ensures Outcome(initial, callers) == Outcome(initial, callers[..done])
  {
    if done < |callers| {
      var n := |callers| - 1;
      assert callers[..n][..done] == callers[..done];
      WaitingAddsNothing(initial, callers[..n], done);
    } else {
      assert callers[..done] == callers;
    }
  }

  /** However the calls interleave and whichever writes fail: at most one call is inside, calls take their
      turn in the order they were made, no update is lost, and the memory is the last state written. */
  lemma NoUpdateIsLost(initial: Keys, events: seq<Event>)
    ensures var w := Run(World(initial, initial, []), events);
            && w.memory == Outcome(initial, w.callers)
            && (forall i, j :: 0 <= i < j < |w.callers| && !w.callers[j].phase.Queued? ==> w.callers[i].phase.Settled?)
            && ((forall i :: 0 <= i < |w.callers| ==> !w.callers[i].phase.Landed?) ==> w.file == w.memory)
  {
    var w0 := World(initial, initial, []);
    var done := RunKeepsTurn(w0, initial, 0, events);
    var w := Run(w0, events);
    WaitingAddsNothing(initial, w.callers, done);
  }

  /** A failed write blocks nobody: whenever no call is inside and one waits, the first waiting may begin. */
  lemma SomeoneMayBegin(initial: Keys, events: seq<Event>)
    ensures var w := Run(World(initial, initial, []), events);
            || (forall i :: 0 <= i < |w.callers| ==> w.callers[i].phase.Settled?)
            || (exists i :: 0 <= i < |w.callers| && (Inside(w.callers[i]) || MayBegin(w, i)))
  {
    var w0 := World(initial, initial, []);
    var done := RunKeepsTurn(w0, initial, 0, events);
    var w := Run(w0, events);
    if done < |w.callers| {
      assert Inside(w.callers[done]) || MayBegin(w, done);
    }
  }

  // ---------------------------------------------------------------------------------------------
  // What a reader gets
  // ---------------------------------------------------------------------------------------------

  /** The call at `k` is the last one on `id` that succeeded. */
  ghost predicate LastOn(callers: seq<Caller>, id: string, k: nat) {
    && k < |callers| && callers[k].phase == Settled(true) && callers[k].op.id == id
    && forall i :: k < i < |callers| && callers[i].op.id == id ==> callers[i].phase != Settled(true)
  }

  ghost predicate NoneOn(callers: seq<Caller>, id: string) {
    forall i :: 0 <= i < |callers| && callers[i].op.id == id ==> callers[i].phase != Settled(true)
  }

  lemma {:induction false} OutcomeOfNone(initial: Keys, callers: seq<Caller>, id: string)
    requires NoneOn(callers, id)
    ensures Lookup(Outcome(initial, callers), id) == Lookup(initial, id)
  {
    if callers != [] {
      var n := |callers| - 1;
      assert forall i :: 0 <= i < n ==> callers[..n][i] == callers[i];
      OutcomeOfNone(initial, callers[..n], id);
    }
  }

  lemma {:induction false} OutcomeOfLast(initial: Keys, callers: seq<Caller>, id: string, k: nat)
    requires LastOn(callers, id, k)
    ensures Lookup(Outcome(initial, callers), id) == if callers[k].op.Set? then Some(callers[k].op.key) else None
  {
    var n := |callers| - 1;
    if k < n {
      assert forall i :: 0 <= i < n ==> callers[..n][i] == callers[i];
      OutcomeOfLast(initial, callers[..n], id, k);
    }
  }

  /** At any moment of any run, reading a key gives what the last successful call for that id left, whatever
      became of the calls for other ids and of the failed ones; without one, what was on file at the start. */
  lemma ReadsLastSuccess(initial: Keys, events: seq<Event>, id: string)
    ensures var w := Run(World(initial, initial, []), events);
            && (NoneOn(w.callers, id) ==> Lookup(w.memory, id) == Lookup(initial, id))
            && (forall k: nat :: LastOn(w.callers, id, k) ==>
                  Lookup(w.memory, id) == if w.callers[k].op.Set? then Some(w.callers[k].op.key) else None)
  {
    NoUpdateIsLost(initial, events);
    var w := Run(World(initial, initial, []), events);
    if NoneOn(w.callers, id) { OutcomeOfNone(initial, w.callers, id); }
    forall k: nat | LastOn(w.callers, id, k)
      ensures Lookup(w.memory, id) == if w.callers[k].op.Set? then Some(w.callers[k].op.key) else None
    {
      OutcomeOfLast(initial, w.callers, id, k);
    }
  }
}

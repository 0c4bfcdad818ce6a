/** `GatekeeperBase.apply` and `lookupApply` over one gate file, as a state machine: every step is
    one stretch of code between two awaits, one outcome of the outside world (a write landing or
    failing, the transport answering), or a crash. Runs are arbitrary sequences of steps. */
module GateProtocol {
  import opened Wrappers
  import opened IdempotencyStore

  /** How a transport call ended, as `apply` reads it. */
  datatype Outcome =
    | Success(payload: Payload)
    | RefusedByTransport
    | TransportFailed(failure: StoredFailure)

  datatype Phase =
    | Reserving                  // the reservation's write is outstanding
    | ReserveFailed              // it failed; the key is about to be removed again
    | Owned                      // reserved on disk, nothing invoked yet
    | Invoking                   // the transport call is in flight
    | Returned(outcome: Outcome) // it ended; nothing recorded yet
    | Recording(entry: Entry)    // the write of its result or failure is outstanding
    | Recorded(entry: Entry)     // that write landed; the caller is about to be answered
    | Releasing                  // the write that frees the key is outstanding
    | Closing                    // a lookup closed the key; its write is outstanding
    | CloseFailed                // it failed; the key is about to be removed again
    | Closed                     // it landed; the caller is about to be answered

  /** `approved`: the definition the caller approved is the one this gate runs. */
  datatype Call = Call(key: Key, descriptor: Descriptor, approved: bool, phase: Phase)

  datatype Invocation = Invocation(key: Key, refused: bool)

  datatype Reply =
    | Repeated(result: ReserveResult) // an apply of a key that held something
    | Found(found: LookupResult)      // a lookup of a key that held something
    | Performed(entry: Entry)         // the call that ran the operation
    | ClosedNow                       // the lookup that closed the key: not received
    | Error

  datatype Answer = Answer(id: CallId, key: Key, descriptor: Descriptor, reply: Reply)

  datatype Gate = Gate(
    store: Store,
    calls: map<CallId, Call>,
    nextId: CallId,
    invoked: map<CallId, Invocation>,
    answers: seq<Answer>)

  datatype Event =
    | Load
    | ApplyArrives(key: Key, descriptor: Descriptor, approved: bool)
    | LookupArrives(key: Key, descriptor: Descriptor)
    | WriteStarts
    | WriteLands
    | WriteSettles
    | WriteFails
    | RollsBack(id: CallId)
    | GivesUp(id: CallId)
    | Invokes(id: CallId)
    | TransportReturns(id: CallId, outcome: Outcome)
    | MappingThrows(id: CallId)
    | Records(id: CallId)
    | Replies(id: CallId)
    | Crash

  function Phased(s: Gate, id: CallId, phase: Phase): Gate
    requires id in s.calls
  {
    s.(calls := s.calls[id := s.calls[id].(phase := phase)])
  }

  function Ended(s: Gate, id: CallId, reply: Reply): Gate
    requires id in s.calls
  {
    s.(calls := s.calls - {id},
    answers := s.answers + [Answer(id, s.calls[id].key, s.calls[id].descriptor, reply)])
  }

  predicate At(s: Gate, id: CallId, phase: Phase) {
    id in s.calls && s.calls[id].phase == phase
  }

  function ApplyArrival(s: Gate, key: Key, d: Descriptor, approved: bool): Gate
    requires s.store.memory.Some?
  {
    var (store, result) := Reserve(s.store, key, d, s.nextId);
    if result.Reserved? then
      s.(store := store, nextId := s.nextId + 1,
      calls := s.calls[s.nextId := Call(key, d, approved, Reserving)])
    else
      s.(store := store, nextId := s.nextId + 1,
      answers := s.answers + [Answer(s.nextId, key, d, Repeated(result))])
  }

  function LookupArrival(s: Gate, key: Key, d: Descriptor): Gate
    requires s.store.memory.Some?
  {
    var (store, result, closed) := Lookup(s.store, key, d, s.nextId);
    if closed then
      s.(store := store, nextId := s.nextId + 1,
      calls := s.calls[s.nextId := Call(key, d, false, Closing)])
    else
      s.(store := store, nextId := s.nextId + 1,
      answers := s.answers + [Answer(s.nextId, key, d, Found(result))])
  }

  /** The awaiting caller goes on after its write landed. */
  function Settled(s: Gate): Gate
    requires s.store.running.Some?
  {
    var id := s.store.running.value.id;
    var t := s.(store := EndWrite(s.store));
    if id !in s.calls then t
    else match s.calls[id].phase
         case Reserving => Phased(t, id, Owned)
         case Closing => Phased(t, id, Closed)
         case Recording(e) => Phased(t, id, Recorded(e))
         case Releasing => Ended(t, id, Error)
         case _ => t
  }

  /** The awaiting caller goes on after its write failed. */
  function WriteFailed(s: Gate): Gate
    requires s.store.running.Some?
  {
    var id := s.store.running.value.id;
    var t := s.(store := EndWrite(s.store));
    if id !in s.calls then t
    else match s.calls[id].phase
         case Reserving => Phased(t, id, ReserveFailed)
         case Closing => Phased(t, id, CloseFailed)
         case Recording(_) => Ended(t, id, Error)
         case Releasing => Ended(t, id, Error)
         case _ => t
  }

  function Released(s: Gate, id: CallId): Gate
    requires id in s.calls && s.store.memory.Some?
  {
    var (store, freed) := Release(s.store, s.calls[id].key, id);
    if freed then Phased(s.(store := store), id, Releasing) else Ended(s, id, Error)
  }

  function RecordOutcome(s: Gate, id: CallId): Gate
    requires id in s.calls && s.calls[id].phase.Returned? && s.store.memory.Some?
  {
    var key := s.calls[id].key;
    match s.calls[id].phase.outcome
    case RefusedByTransport => Released(s, id)
    case Success(p) =>
      var store := Complete(s.store, key, p, id);
      Phased(s.(store := store), id, Recording(store.memory.value[key]))
    case TransportFailed(f) =>
      var store := IdempotencyStore.Fail(s.store, key, f, id);
      Phased(s.(store := store), id, Recording(store.memory.value[key]))
  }

  /** One step. An event that cannot happen in `s` leaves it unchanged. */
  function Step(s: Gate, e: Event): Gate {
    match e
    case Load =>
      if s.store.memory.None? then s.(store := Loaded(s.store)) else s
    case ApplyArrives(key, d, approved) =>
      if s.store.memory.Some? then ApplyArrival(s, key, d, approved) else s
    case LookupArrives(key, d) =>
      if s.store.memory.Some? then LookupArrival(s, key, d) else s
    case WriteStarts =>
      if CanStart(s.store) then s.(store := StartWrite(s.store)) else s
    case WriteLands =>
      if s.store.running.Some? && !s.store.running.value.landed then s.(store := LandWrite(s.store)) else s
    case WriteSettles =>
      if s.store.running.Some? && s.store.running.value.landed then Settled(s) else s
    case WriteFails =>
      if s.store.running.Some? && !s.store.running.value.landed then WriteFailed(s) else s
    case RollsBack(id) =>
      if s.store.memory.Some? && (At(s, id, ReserveFailed) || At(s, id, CloseFailed)) then
        Ended(s.(store := Forget(s.store, s.calls[id].key)), id, Error)
      else s
    case GivesUp(id) =>
      if s.store.memory.Some? && At(s, id, Owned) then Released(s, id) else s
    case Invokes(id) =>
      if At(s, id, Owned) && s.calls[id].approved then
        Phased(s, id, Invoking).(invoked := s.invoked[id := Invocation(s.calls[id].key, false)])
      else s
    case TransportReturns(id, outcome) =>
      if At(s, id, Invoking) && id in s.invoked then
        Phased(s, id, Returned(outcome)).(
        invoked := s.invoked[id := s.invoked[id].(refused := outcome.RefusedByTransport?)])
      else s
    case MappingThrows(id) =>
      if id in s.calls && s.calls[id].phase.Returned? && s.calls[id].phase.outcome.Success? then
        Ended(s, id, Error)
      else s
    case Records(id) =>
      if s.store.memory.Some? && id in s.calls && s.calls[id].phase.Returned? then RecordOutcome(s, id) else s
    case Replies(id) =>
      if id in s.calls && s.calls[id].phase.Recorded? then Ended(s, id, Performed(s.calls[id].phase.entry))
      else if At(s, id, Closed) then Ended(s, id, ClosedNow)
      else s
    case Crash =>
      s.(store := Crashed(s.store), calls := map[])
  }

  function Run(s: Gate, events: seq<Event>): Gate
    decreases |events|
  {
    if events == [] then s else Run(Step(s, events[0]), events[1..])
  }

  /** A gate that has not started yet, over whatever its file holds. */
  predicate Initial(s: Gate) {
    && s.store == Store(None, s.store.file, [], None)
    && s.calls == map[] && s.invoked == map[] && s.answers == []
  }

  // ---------------------------------------------------------------------------------------------
  // The invariant
  // ---------------------------------------------------------------------------------------------

  predicate Awaiting(p: Phase) {
    p.Reserving? || p.Closing? || p.Recording? || p.Releasing?
  }

  predicate PendingPhase(p: Phase) {
    p.Reserving? || p.ReserveFailed? || p.Owned? || p.Invoking? || p.Returned?
  }

  predicate ClosingPhase(p: Phase) {
    p.Closing? || p.CloseFailed? || p.Closed?
  }

  predicate ResultPhase(p: Phase) {
    p.Recording? || p.Recorded?
  }

  /** The call waits for a write of its own. */
  predicate Waits(s: Gate, id: CallId) {
    id in s.store.queue || (s.store.running.Some? && s.store.running.value.id == id)
  }

  /** The write `id` waits for has landed though the process was not told yet. */
  predicate LandedUnsettled(s: Gate, id: CallId) {
    s.store.running.Some? && s.store.running.value.landed && s.store.running.value.id == id
  }

  /** A call that still has to do with its key: at most one per key. */
  predicate Holds(s: Gate, id: CallId, key: Key) {
    id in s.calls && s.calls[id].key == key && s.calls[id].phase != Releasing
  }

  /** A call that may still take its key out of the map or overwrite it. */
  predicate Claims(s: Gate, id: CallId, key: Key) {
    && id in s.calls && s.calls[id].key == key
    && (PendingPhase(s.calls[id].phase)
        || s.calls[id].phase == CloseFailed
        || (s.calls[id].phase == Closing && !LandedUnsettled(s, id)))
  }

  ghost predicate Unclaimed(s: Gate, key: Key) {
    forall id :: !Claims(s, id, key)
  }

  function InMemory(s: Gate, key: Key): Option<Entry> {
    if s.store.memory.Some? && key in s.store.memory.value then Some(s.store.memory.value[key]) else None
  }

  /** What a later process would find under `key`. */
  function OnFile(s: Gate, key: Key): Option<Entry> {
    if key in s.store.file then LoadedEntry(s.store.file[key]) else None
  }

  /** What the running write would put under `key`. */
  function InSnapshot(s: Gate, key: Key): Option<Entry> {
    if s.store.running.Some? && key in s.store.running.value.snapshot then
      Some(s.store.running.value.snapshot[key])
    else None
  }

  /** The file says `e` to a later process, and goes on saying it if the running write lands. */
  predicate OnDiskAs(s: Gate, key: Key, e: Entry) {
    && OnFile(s, key) == Some(e)
    && (s.store.running.Some? ==>
          InSnapshot(s, key).Some? && LoadedEntry(Written(InSnapshot(s, key).value)) == Some(e))
  }

  predicate Anchored(s: Gate, key: Key) {
    OnFile(s, key).Some? && (s.store.running.Some? ==> InSnapshot(s, key).Some?)
  }

  /** `e` is what `key` holds, on disk and in memory, and nothing under way can change it. */
  ghost predicate Final(s: Gate, key: Key, e: Entry) {
    && !e.Pending?
    && OnDiskAs(s, key, e)
    && (s.store.memory.Some? ==> InMemory(s, key) == Some(e))
    && Unclaimed(s, key)
  }

  /** One call: what its key holds in memory, whether it waits for a write and what that write
      carries, what is already on disk, and whether the transport was called. */
  predicate CallOk(s: Gate, id: CallId) {
    id in s.calls ==>
      var c := s.calls[id];
      && id < s.nextId
      && (Waits(s, id) <==> Awaiting(c.phase))
      && (id in s.invoked ==> s.invoked[id].key == c.key)
      && (c.phase != Releasing ==>
            && InMemory(s, c.key).Some? && InMemory(s, c.key).value.descriptor == c.descriptor
            && (s.store.running.Some? && s.store.running.value.id == id ==>
                  InSnapshot(s, c.key) == InMemory(s, c.key)))
      && (PendingPhase(c.phase) ==> InMemory(s, c.key).value.Pending?)
      && (ClosingPhase(c.phase) ==> InMemory(s, c.key).value.NotReceived? && id !in s.invoked)
      && (ResultPhase(c.phase) ==>
            InMemory(s, c.key) == Some(c.phase.entry) && (c.phase.entry.Done? || c.phase.entry.Failed?))
      && (c.phase.Owned? || c.phase.Invoking? || c.phase.Returned? ==> OnDiskAs(s, c.key, Orphaned(c.descriptor)))
      && (c.phase.Recorded? ==> OnFile(s, c.key) == Some(c.phase.entry))
      && (c.phase.Reserving? || c.phase.ReserveFailed? || c.phase.Owned? ==> id !in s.invoked)
      && (c.phase.Invoking? ==> id in s.invoked && s.invoked[id] == Invocation(c.key, false))
      && (c.phase.Returned? ==>
            id in s.invoked && s.invoked[id] == Invocation(c.key, c.phase.outcome.RefusedByTransport?))
  }

  ghost predicate CallsOk(s: Gate) {
    && (forall id {:trigger CallOk(s, id)} :: CallOk(s, id))
    && (forall a, b, k {:trigger Holds(s, a, k), Holds(s, b, k)} :: Holds(s, a, k) && Holds(s, b, k) ==> a == b)
  }

  predicate Distinct(q: seq<CallId>) {
    q == [] || (q[0] !in q[1..] && Distinct(q[1..]))
  }

  /** The write chain: only waiting calls are in it, each once; a landed write is what the file says. */
  ghost predicate ChainOk(s: Gate) {
    && Distinct(s.store.queue)
    && (forall id {:trigger Waits(s, id)} :: Waits(s, id) ==> id in s.calls)
    && (s.store.memory.None? ==> s.calls == map[] && s.store.queue == [] && s.store.running.None?)
    && (s.store.running.Some? ==>
          && s.store.running.value.id !in s.store.queue
          && (s.store.running.value.landed ==> s.store.file == FileOf(s.store.running.value.snapshot)))
  }

  /** One key that holds a result: where it stands on disk. A recorded result may still be on its
      way there, a closing may still fail. */
  ghost predicate KeyOk(s: Gate, key: Key) {
    && (InMemory(s, key).Some? ==>
          var e := InMemory(s, key).value;
          && (e.Orphaned? ==> OnDiskAs(s, key, e))
          && (e.NotReceived? ==> OnDiskAs(s, key, e) || exists id :: Claims(s, id, key))
          && (e.Done? || e.Failed? ==>
                && (OnFile(s, key) == Some(e) || OnFile(s, key) == Some(Orphaned(e.descriptor)))
                && (s.store.running.Some? ==>
                      && (InSnapshot(s, key) == Some(e) || InSnapshot(s, key) == Some(Pending(e.descriptor)))
                      && (OnFile(s, key) == Some(e) ==> InSnapshot(s, key) == Some(e)))))
    && (InSnapshot(s, key).Some? ==>
          var e := InSnapshot(s, key).value;
          e.Done? || e.Failed? || e.Orphaned? ==> InMemory(s, key) == Some(e))
  }

  ghost predicate KeysOk(s: Gate) {
    forall k {:trigger KeyOk(s, k)} :: KeyOk(s, k)
  }

  /** A transport call that was not refused: its key stays on disk and in memory, and only that call
      may still touch it. */
  ghost predicate InvocationOk(s: Gate, id: CallId) {
    id in s.invoked ==>
      && id < s.nextId
      && (!s.invoked[id].refused ==>
            var k := s.invoked[id].key;
            && Anchored(s, k)
            && (s.store.memory.Some? ==> InMemory(s, k).Some?)
            && (forall other :: Claims(s, other, k) ==> other == id))
  }

  /** The transport runs at most once per actionRequestId, refusals aside. */
  ghost predicate AtMostOnce(s: Gate) {
    forall a, b :: a in s.invoked && b in s.invoked && a != b
                   && !s.invoked[a].refused && !s.invoked[b].refused
                   ==> s.invoked[a].key != s.invoked[b].key
  }

  ghost predicate InvocationsOk(s: Gate) {
    && (forall id {:trigger InvocationOk(s, id)} :: InvocationOk(s, id))
    && AtMostOnce(s)
  }

  ghost predicate Inv(s: Gate) {
    CallsOk(s) && ChainOk(s) && KeysOk(s) && InvocationsOk(s)
  }

  lemma InitialInv(s: Gate)
    requires Initial(s)
    ensures Inv(s)
  {
  }

  // ---------------------------------------------------------------------------------------------
  // Every step keeps the invariant
  // ---------------------------------------------------------------------------------------------

  lemma {:induction false} AppendDistinct(q: seq<CallId>, id: CallId)
    requires Distinct(q) && id !in q
    ensures Distinct(q + [id])
  {
    if q != [] {
      AppendDistinct(q[1..], id);
      assert (q + [id])[1..] == q[1..] + [id];
    }
  }

  /** `t` is `s` after a stretch of code that only concerns call `id` and its `key`, which no other
      call holds. */
  ghost predicate Touches(s: Gate, t: Gate, id: CallId, key: Key) {
    && s.store.memory.Some? && t.store.memory.Some?
    && t.store.running == s.store.running && t.store.file == s.store.file
    && (t.store.queue == s.store.queue || (t.store.queue == s.store.queue + [id] && !Waits(s, id) && id in t.calls))
    && t.store.memory.value - {key} == s.store.memory.value - {key}
    && t.calls - {id} == s.calls - {id}
    && t.invoked - {id} == s.invoked - {id}
    && t.nextId >= s.nextId
    && (Waits(s, id) ==> id in t.calls)
    && (id in s.calls ==> s.calls[id].key == key)
    && (id in t.calls ==> t.calls[id].key == key)
    && (id in t.invoked ==> t.invoked[id].key == key)
    && (forall other :: Holds(s, other, key) ==> other == id)
  }

  lemma OtherCalls(s: Gate, t: Gate, id: CallId, key: Key)
    requires Inv(s) && Touches(s, t, id, key)
    requires CallOk(t, id)
    ensures CallsOk(t)
  {
    Elsewhere(s.calls, t.calls, id);
    Elsewhere(s.invoked, t.invoked, id);
    Elsewhere(s.store.memory.value, t.store.memory.value, key);
    forall other ensures CallOk(t, other) {
      assert CallOk(s, other);
      if other != id && other in t.calls {
        assert Holds(s, other, s.calls[other].key) == (s.calls[other].phase != Releasing);
        assert Waits(t, other) == Waits(s, other);
      }
    }
    forall a, b, k | Holds(t, a, k) && Holds(t, b, k) ensures a == b {
      assert a != id ==> Holds(s, a, k);
      assert b != id ==> Holds(s, b, k);
    }
  }

  lemma OtherKeys(s: Gate, t: Gate, id: CallId, key: Key)
    requires Inv(s) && Touches(s, t, id, key)
    requires KeyOk(t, key)
    ensures KeysOk(t)
  {
    Elsewhere(s.calls, t.calls, id);
    Elsewhere(s.store.memory.value, t.store.memory.value, key);
    forall k ensures KeyOk(t, k) {
      assert KeyOk(s, k);
      if k != key {
        if i :| Claims(s, i, k) {
          assert Claims(t, i, k);
        }
      }
    }
  }

  lemma OtherInvocations(s: Gate, t: Gate, id: CallId, key: Key)
    requires Inv(s) && Touches(s, t, id, key)
    requires InvocationOk(t, id)
    requires forall i :: i in s.invoked && !s.invoked[i].refused && s.invoked[i].key == key ==> i == id
    ensures InvocationsOk(t)
  {
    Elsewhere(s.calls, t.calls, id);
    Elsewhere(s.invoked, t.invoked, id);
    Elsewhere(s.store.memory.value, t.store.memory.value, key);
    forall i ensures InvocationOk(t, i) {
      assert InvocationOk(s, i);
      if i != id && i in t.invoked && !t.invoked[i].refused {
        forall other | Claims(t, other, t.invoked[i].key) ensures other == i {
          assert other != id && Claims(s, other, t.invoked[i].key);
        }
      }
    }
  }

  lemma OtherWrites(s: Gate, t: Gate, id: CallId, key: Key)
    requires Inv(s) && Touches(s, t, id, key)
    ensures ChainOk(t)
  {
    if t.store.queue != s.store.queue {
      AppendDistinct(s.store.queue, id);
    }
    forall i | Waits(t, i) ensures i in t.calls {
      if i != id {
        assert Waits(s, i);
        assert i in (s.calls - {id});
        assert i in (t.calls - {id});
      }
    }
  }

  lemma TouchKeepsInv(s: Gate, t: Gate, id: CallId, key: Key)
    requires Inv(s) && Touches(s, t, id, key)
    requires CallOk(t, id) && KeyOk(t, key) && InvocationOk(t, id)
    requires forall i :: i in s.invoked && !s.invoked[i].refused && s.invoked[i].key == key ==> i == id
    ensures Inv(t)
  {
    OtherCalls(s, t, id, key);
    OtherKeys(s, t, id, key);
    OtherInvocations(s, t, id, key);
    OtherWrites(s, t, id, key);
  }

  /** A call other than the one that invoked the transport for it never holds the key. */
  lemma OnlyItsOwnInvocation(s: Gate, id: CallId)
    requires Inv(s) && id in s.calls
    requires PendingPhase(s.calls[id].phase) || s.calls[id].phase == CloseFailed
    ensures forall other :: Holds(s, other, s.calls[id].key) ==> other == id
    ensures forall i :: i in s.invoked && !s.invoked[i].refused && s.invoked[i].key == s.calls[id].key ==> i == id
  {
    var key := s.calls[id].key;
    assert Holds(s, id, key) && Claims(s, id, key);
    forall i | i in s.invoked && !s.invoked[i].refused && s.invoked[i].key == key ensures i == id {
      assert InvocationOk(s, i);
    }
  }

  lemma NewCallKeepsInv(s: Gate, t: Gate, key: Key, e: Entry, c: Call)
    requires Inv(s) && s.store.memory.Some? && key !in s.store.memory.value
    requires c.key == key && c.descriptor == e.descriptor
    requires (c.phase == Reserving && e.Pending?) || (c.phase == Closing && e.NotReceived?)
    requires t == s.(store := Put(s.store, key, e, s.nextId), nextId := s.nextId + 1, calls := s.calls[s.nextId := c])
    ensures Inv(t)
  {
    var id := s.nextId;
    assert CallOk(s, id) && InvocationOk(s, id);
    assert id !in s.calls && id !in s.invoked && !Waits(s, id);
    assert t.store.memory.value - {key} == s.store.memory.value - {key};
    assert t.calls - {id} == s.calls - {id};
    forall other ensures !Holds(s, other, key) {
      assert CallOk(s, other);
    }
    forall i ensures !(i in s.invoked && !s.invoked[i].refused && s.invoked[i].key == key) {
      assert InvocationOk(s, i);
    }
    assert KeyOk(s, key);
    assert Claims(t, id, key);
    TouchKeepsInv(s, t, id, key);
  }

  lemma AnswerKeepsInv(s: Gate, t: Gate)
    requires Inv(s)
    requires t == s.(nextId := t.nextId, answers := t.answers) && t.nextId >= s.nextId
    ensures Inv(t)
  {
    forall i ensures CallOk(t, i) { assert CallOk(s, i); }
    forall a, b, k | Holds(t, a, k) && Holds(t, b, k) ensures a == b { assert Holds(s, a, k) && Holds(s, b, k); }
    forall i | Waits(t, i) ensures i in t.calls { assert Waits(s, i); }
    forall k ensures KeyOk(t, k) {
      assert KeyOk(s, k);
      if i :| Claims(s, i, k) { assert Claims(t, i, k); }
    }
    forall i ensures InvocationOk(t, i) {
      assert InvocationOk(s, i);
      forall other, k | Claims(t, other, k) ensures Claims(s, other, k) { }
    }
  }

  lemma ArrivalKeepsInv(s: Gate, e: Event)
    requires Inv(s) && (e.ApplyArrives? || e.LookupArrives?)
    ensures Inv(Step(s, e))
  {
    var t := Step(s, e);
    if s.store.memory.None? {
    } else if e.key in s.store.memory.value {
      AnswerKeepsInv(s, t);
    } else if e.ApplyArrives? {
      NewCallKeepsInv(s, t, e.key, Pending(e.descriptor), Call(e.key, e.descriptor, e.approved, Reserving));
    } else {
      NewCallKeepsInv(s, t, e.key, NotReceived(e.descriptor), Call(e.key, e.descriptor, false, Closing));
    }
  }

  /** A call moves on or ends without touching the store. */
  lemma AdvanceKeepsInv(s: Gate, t: Gate, id: CallId)
    requires Inv(s) && id in s.calls && s.store.memory.Some?
    requires t == s.(calls := t.calls, invoked := t.invoked, answers := t.answers)
    requires !Waits(s, id)
    requires t.calls - {id} == s.calls - {id} && t.invoked - {id} == s.invoked - {id}
    requires id in t.calls ==> t.calls[id].key == s.calls[id].key && t.calls[id].descriptor == s.calls[id].descriptor
    requires id in t.invoked ==> t.invoked[id].key == s.calls[id].key
    requires PendingPhase(s.calls[id].phase)
    requires id in t.calls ==> PendingPhase(t.calls[id].phase) && !Awaiting(t.calls[id].phase)
    requires id in t.invoked && !t.invoked[id].refused ==> s.calls[id].phase.Owned? || s.calls[id].phase.Invoking? || s.calls[id].phase.Returned?
    requires CallOk(t, id)
    ensures Inv(t)
  {
    var key := s.calls[id].key;
    OnlyItsOwnInvocation(s, id);
    assert CallOk(s, id) && KeyOk(s, key) && InvocationOk(s, id);
    forall other | Claims(t, other, key) ensures other == id {
      Elsewhere(s.calls, t.calls, id);
      if other != id { assert Holds(s, other, key); }
    }
    TouchKeepsInv(s, t, id, key);
  }

  lemma OwnerKeepsInv(s: Gate, e: Event)
    requires Inv(s) && (e.Invokes? || e.TransportReturns? || e.MappingThrows?)
    ensures Inv(Step(s, e))
  {
    var t := Step(s, e);
    if t != s {
      assert CallOk(s, e.id);
      assert t.calls - {e.id} == s.calls - {e.id};
      assert t.invoked - {e.id} == s.invoked - {e.id};
      AdvanceKeepsInv(s, t, e.id);
    }
  }

  lemma RollBackKeepsInv(s: Gate, id: CallId)
    requires Inv(s)
    ensures Inv(Step(s, RollsBack(id)))
  {
    var t := Step(s, RollsBack(id));
    if s.store.memory.Some? && (At(s, id, ReserveFailed) || At(s, id, CloseFailed)) {
      var key := s.calls[id].key;
      OnlyItsOwnInvocation(s, id);
      assert CallOk(s, id) && KeyOk(s, key) && InvocationOk(s, id);
      TouchKeepsInv(s, t, id, key);
    }
  }

  lemma ReplyKeepsInv(s: Gate, id: CallId)
    requires Inv(s)
    ensures Inv(Step(s, Replies(id)))
  {
    var t := Step(s, Replies(id));
    if t != s {
      var key := s.calls[id].key;
      assert CallOk(s, id) && KeyOk(s, key) && Holds(s, id, key);
      assert s.store.memory.Some?;
      if i :| Claims(s, i, key) { assert Claims(t, i, key); }
      OtherCalls(s, t, id, key);
      OtherKeys(s, t, id, key);
      OtherWrites(s, t, id, key);
      ClaimsShrink(s, t);
    }
  }

  /** Fewer claims over the same store keep every past invocation safe. */
  lemma ClaimsShrink(s: Gate, t: Gate)
    requires Inv(s)
    requires t.store == s.store && t.invoked == s.invoked && t.nextId == s.nextId
    requires forall i, k :: Claims(t, i, k) ==> Claims(s, i, k)
    ensures InvocationsOk(t)
  {
    forall i ensures InvocationOk(t, i) {
      assert InvocationOk(s, i);
    }
  }

  /** The key is freed: its call never ran anything, or was refused. */
  lemma ReleaseKeepsInv(s: Gate, id: CallId)
    requires Inv(s) && id in s.calls && s.store.memory.Some?
    requires s.calls[id].phase.Owned? || s.calls[id].phase == Returned(RefusedByTransport)
    ensures Inv(Released(s, id))
  {
    var t := Released(s, id);
    var key := s.calls[id].key;
    OnlyItsOwnInvocation(s, id);
    assert CallOk(s, id) && KeyOk(s, key) && InvocationOk(s, id);
    assert t.calls - {id} == s.calls - {id};
    assert t.store.memory.value - {key} == s.store.memory.value - {key};
    TouchKeepsInv(s, t, id, key);
  }

  lemma ResultKeepsInv(s: Gate, id: CallId)
    requires Inv(s) && id in s.calls && s.store.memory.Some?
    requires s.calls[id].phase.Returned? && !s.calls[id].phase.outcome.RefusedByTransport?
    ensures Inv(RecordOutcome(s, id))
  {
    var t := RecordOutcome(s, id);
    var key := s.calls[id].key;
    OnlyItsOwnInvocation(s, id);
    assert CallOk(s, id) && KeyOk(s, key) && InvocationOk(s, id);
    assert t.calls - {id} == s.calls - {id};
    assert t.store.memory.value - {key} == s.store.memory.value - {key};
    forall other | Claims(t, other, key) ensures other == id {
      if other != id { assert Holds(s, other, key); }
    }
    TouchKeepsInv(s, t, id, key);
  }

  lemma RecordKeepsInv(s: Gate, id: CallId)
    requires Inv(s)
    ensures Inv(Step(s, Records(id)))
  {
    if s.store.memory.Some? && id in s.calls && s.calls[id].phase.Returned? {
      if s.calls[id].phase.outcome.RefusedByTransport? {
        ReleaseKeepsInv(s, id);
      } else {
        ResultKeepsInv(s, id);
      }
    }
  }

  lemma StartKeepsInv(s: Gate)
    requires Inv(s)
    ensures Inv(Step(s, WriteStarts))
  {
    var t := Step(s, WriteStarts);
    if CanStart(s.store) {
      assert s.store.queue == [s.store.queue[0]] + s.store.queue[1..];
      forall i ensures Waits(t, i) == Waits(s, i) && CallOk(t, i) { assert CallOk(s, i); }
      forall a, b, k | Holds(t, a, k) && Holds(t, b, k) ensures a == b { assert Holds(s, a, k) && Holds(s, b, k); }
      forall k ensures KeyOk(t, k) {
        assert KeyOk(s, k);
        if i :| Claims(s, i, k) { assert Claims(t, i, k); }
      }
      forall i ensures InvocationOk(t, i) {
        assert InvocationOk(s, i);
        forall other, k | Claims(t, other, k) ensures Claims(s, other, k) { }
      }
    }
  }

  lemma LandKeepsInv(s: Gate)
    requires Inv(s)
    ensures Inv(Step(s, WriteLands))
  {
    var t := Step(s, WriteLands);
    if s.store.running.Some? && !s.store.running.value.landed {
      var id := s.store.running.value.id;
      assert Waits(s, id) && CallOk(s, id);
      forall k ensures OnFile(t, k) == (if InSnapshot(s, k).Some? then LoadedEntry(Written(InSnapshot(s, k).value)) else None) { }
      forall i ensures CallOk(t, i) {
        assert CallOk(s, i);
        assert i in s.calls ==> KeyOk(s, s.calls[i].key);
      }
      forall a, b, k | Holds(t, a, k) && Holds(t, b, k) ensures a == b { assert Holds(s, a, k) && Holds(s, b, k); }
      forall i | Waits(t, i) ensures i in t.calls { assert Waits(s, i); }
      forall k ensures KeyOk(t, k) {
        assert KeyOk(s, k);
        if i :| Claims(s, i, k) {
          assert i == id ==> Holds(s, i, k);
          assert i != id ==> Claims(t, i, k);
        }
      }
      forall i ensures InvocationOk(t, i) {
        assert InvocationOk(s, i);
        forall other, k | Claims(t, other, k) ensures Claims(s, other, k) { }
      }
    }
  }

  /** The running write is over; its caller `id` is in phase `t.calls[id].phase` now, or gone. */
  lemma WriteEndKeepsInv(s: Gate, t: Gate, id: CallId)
    requires Inv(s) && s.store.running.Some? && s.store.running.value.id == id && id in s.calls
    requires t == s.(store := EndWrite(s.store), calls := t.calls, answers := t.answers)
    requires t.calls - {id} == s.calls - {id}
    requires id in t.calls ==>
               && t.calls[id].key == s.calls[id].key && t.calls[id].descriptor == s.calls[id].descriptor
               && CallOk(t, id)
    requires forall k :: Claims(t, id, k) <==> Claims(s, id, k)
    requires id in t.calls ==> t.calls[id].phase != Releasing
    requires id in t.calls ==> s.calls[id].phase != Releasing
    ensures Inv(t)
  {
    Elsewhere(s.calls, t.calls, id);
    assert CallOk(s, id) && Waits(s, id);
    forall i ensures CallOk(t, i) {
      assert CallOk(s, i);
      assert i != id ==> Waits(t, i) == Waits(s, i);
    }
    forall a, b, k | Holds(t, a, k) && Holds(t, b, k) ensures a == b {
      assert Holds(s, a, k) && Holds(s, b, k);
    }
    forall i | Waits(t, i) ensures i in t.calls { assert Waits(s, i); }
    forall i, k ensures Claims(t, i, k) == Claims(s, i, k) { }
    forall k ensures KeyOk(t, k) {
      assert KeyOk(s, k);
    }
    forall i ensures InvocationOk(t, i) {
      assert InvocationOk(s, i);
    }
  }

  lemma SettleKeepsInv(s: Gate)
    requires Inv(s)
    ensures Inv(Step(s, WriteSettles))
  {
    var t := Step(s, WriteSettles);
    if s.store.running.Some? && s.store.running.value.landed {
      var id := s.store.running.value.id;
      assert Waits(s, id) && CallOk(s, id) && KeyOk(s, s.calls[id].key);
      assert !Waits(t, id);
      WriteEndKeepsInv(s, t, id);
    }
  }

  lemma FailKeepsInv(s: Gate)
    requires Inv(s)
    ensures Inv(Step(s, WriteFails))
  {
    var t := Step(s, WriteFails);
    if s.store.running.Some? && !s.store.running.value.landed {
      var id := s.store.running.value.id;
      assert Waits(s, id) && CallOk(s, id) && KeyOk(s, s.calls[id].key);
      assert !Waits(t, id);
      WriteEndKeepsInv(s, t, id);
    }
  }

  lemma LoadKeepsInv(s: Gate)
    requires Inv(s)
    ensures Inv(Step(s, Load))
  {
    var t := Step(s, Load);
    if s.store.memory.None? {
      forall i ensures CallOk(t, i) { assert CallOk(s, i); }
      forall i | Waits(t, i) ensures i in t.calls { assert Waits(s, i); }
      forall k ensures KeyOk(t, k) { }
      forall i ensures InvocationOk(t, i) { assert InvocationOk(s, i); }
    }
  }

  lemma CrashKeepsInv(s: Gate)
    requires Inv(s)
    ensures Inv(Step(s, Crash))
  {
    var t := Step(s, Crash);
    forall i ensures InvocationOk(t, i) { assert InvocationOk(s, i); }
  }

  lemma StepKeepsInv(s: Gate, e: Event)
    requires Inv(s)
    ensures Inv(Step(s, e))
  {
    match e
    case Load => LoadKeepsInv(s);
    case ApplyArrives(_, _, _) => ArrivalKeepsInv(s, e);
    case LookupArrives(_, _) => ArrivalKeepsInv(s, e);
    case WriteStarts => StartKeepsInv(s);
    case WriteLands => LandKeepsInv(s);
    case WriteSettles => SettleKeepsInv(s);
    case WriteFails => FailKeepsInv(s);
    case RollsBack(id) => RollBackKeepsInv(s, id);
    case GivesUp(id) =>
      if s.store.memory.Some? && At(s, id, Owned) {
        ReleaseKeepsInv(s, id);
      }
    case Invokes(_) => OwnerKeepsInv(s, e);
    case TransportReturns(_, _) => OwnerKeepsInv(s, e);
    case MappingThrows(_) => OwnerKeepsInv(s, e);
    case Records(id) => RecordKeepsInv(s, id);
    case Replies(id) => ReplyKeepsInv(s, id);
    case Crash => CrashKeepsInv(s);
  }
}

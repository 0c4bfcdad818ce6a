/** What the gate records and answers is what the transport did. A run is followed together with a
    ledger that notes, for each call, the outcome of its own transport call; records, replays and
    answers are then compared with the ledger and with nothing else. */
module GateOutcomes {
  import opened Wrappers
  import opened IdempotencyStore
  import opened GateProtocol
  import opened GateProperties

  /** The transport's outcome for one call, as it came back. */
  datatype Report = Report(key: Key, descriptor: Descriptor, outcome: Outcome)

  type Ledger = map<CallId, Report>

  /** The ledger after one event: only the transport coming back to a call in flight adds to it. */
  function Noted(s: Gate, e: Event, known: Ledger): Ledger {
    if e.TransportReturns? && At(s, e.id, Invoking) && e.id in s.invoked then
      known[e.id := Report(s.calls[e.id].key, s.calls[e.id].descriptor, e.outcome)]
    else known
  }

  function LedgerOf(s: Gate, events: seq<Event>, known: Ledger): Ledger
    decreases |events|
  {
    if events == [] then known else LedgerOf(Step(s, events[0]), events[1..], Noted(s, events[0], known))
  }

  /** `e` tells what the transport did: its payload as a result, its failure as a failure, and nothing
      for a refusal. */
  predicate Reports(e: Entry, d: Descriptor, o: Outcome) {
    match o
    case Success(payload) => e == Done(d, payload)
    case TransportFailed(failure) => e == Failed(d, failure)
    case RefusedByTransport => false
  }

  predicate GaveIt(known: Ledger, id: CallId, key: Key, e: Entry) {
    id in known && known[id].key == key && Reports(e, known[id].descriptor, known[id].outcome)
  }

  /** A result or a failure stored under `key` is one the transport gave to a call of that key, or it
      was in the file before the run. */
  ghost predicate Stems(known: Ledger, file: map<Key, DiskRecord>, key: Key, e: Entry) {
    e.Done? || e.Failed? ==>
      (key in file && LoadedEntry(file[key]) == Some(e)) || exists id :: GaveIt(known, id, key, e)
  }

  ghost predicate EntriesStem(known: Ledger, file: map<Key, DiskRecord>, entries: map<Key, Entry>) {
    forall k :: k in entries ==> Stems(known, file, k, entries[k])
  }

  ghost predicate FileStems(known: Ledger, file: map<Key, DiskRecord>, now: map<Key, DiskRecord>) {
    forall k :: k in now && LoadedEntry(now[k]).Some? ==> Stems(known, file, k, LoadedEntry(now[k]).value)
  }

  /** One call: nothing is noted before its transport call is over, and what it carries on is what was
      noted. */
  predicate CallTraced(s: Gate, known: Ledger, id: CallId) {
    && (id in known ==> id < s.nextId)
    && (id in s.calls ==>
          var c := s.calls[id];
          && (id in known ==> known[id].key == c.key && known[id].descriptor == c.descriptor)
          && (c.phase.Reserving? || c.phase.ReserveFailed? || c.phase.Owned? || c.phase.Invoking? || ClosingPhase(c.phase)
              ==> id !in known)
          && (c.phase.Returned? ==> id in known && known[id].outcome == c.phase.outcome)
          && (ResultPhase(c.phase) ==> id in known && Reports(c.phase.entry, c.descriptor, known[id].outcome)))
  }

  /** One answer: the call that ran the operation is told what the transport gave it; a repeat or a
      lookup is told something the transport gave for that key and descriptor, what the file held
      before the run, or that the call came after the key was closed. */
  ghost predicate AnswerTraced(known: Ledger, file: map<Key, DiskRecord>, a: Answer) {
    match a.reply
    case Performed(e) =>
      && a.id in known && known[a.id].key == a.key && known[a.id].descriptor == a.descriptor
      && Reports(e, a.descriptor, known[a.id].outcome)
    case Repeated(Replay(p)) => Stems(known, file, a.key, Done(a.descriptor, p))
    case Found(FoundReplay(p)) => Stems(known, file, a.key, Done(a.descriptor, p))
    case Repeated(KnownFailure(f)) =>
      f == NotReceivedFailure(a.key) || Stems(known, file, a.key, Failed(a.descriptor, f))
    case Found(FoundFailure(f)) => Stems(known, file, a.key, Failed(a.descriptor, f))
    case _ => true
  }

  ghost predicate Traced(s: Gate, known: Ledger, file: map<Key, DiskRecord>) {
    && (forall id {:trigger CallTraced(s, known, id)} :: CallTraced(s, known, id))
    && (s.store.memory.Some? ==> EntriesStem(known, file, s.store.memory.value))
    && (s.store.running.Some? ==> EntriesStem(known, file, s.store.running.value.snapshot))
    && FileStems(known, file, s.store.file)
    && (forall a :: a in s.answers ==> AnswerTraced(known, file, a))
  }

  // ---------------------------------------------------------------------------------------------
  // Every step keeps the trace
  // ---------------------------------------------------------------------------------------------


  lemma ReturnKeepsTrace(s: Gate, e: Event, known: Ledger, file: map<Key, DiskRecord>)
    requires Inv(s) && Traced(s, known, file) && e.TransportReturns?
    ensures Traced(Step(s, e), Noted(s, e, known), file)
  {
    var t, now := Step(s, e), Noted(s, e, known);
    assert CallTraced(s, known, e.id) && CallOk(s, e.id);
    forall id ensures CallTraced(t, now, id) { assert CallTraced(s, known, id); }
    forall k, entry | Stems(known, file, k, entry) ensures Stems(now, file, k, entry) {
      if id :| GaveIt(known, id, k, entry) { assert GaveIt(now, id, k, entry); }
    }
    forall a | a in t.answers ensures AnswerTraced(now, file, a) {
      assert a in s.answers && AnswerTraced(known, file, a);
    }
  }

  lemma AnswerOnArrivalIsTraced(s: Gate, e: Event, known: Ledger, file: map<Key, DiskRecord>, a: Answer)
    requires Traced(s, known, file) && (e.ApplyArrives? || e.LookupArrives?)
    requires a in Step(s, e).answers && a !in s.answers
    ensures AnswerTraced(known, file, a)
  {
    assert a == Step(s, e).answers[|s.answers|];
    assert Stems(known, file, e.key, s.store.memory.value[e.key]);
  }

  lemma ArrivalKeepsTrace(s: Gate, e: Event, known: Ledger, file: map<Key, DiskRecord>)
    requires Inv(s) && Traced(s, known, file) && (e.ApplyArrives? || e.LookupArrives?)
    ensures Traced(Step(s, e), known, file)
  {
    var t := Step(s, e);
    assert CallTraced(s, known, s.nextId);
    forall id ensures CallTraced(t, known, id) { assert CallTraced(s, known, id); }
    forall a | a in t.answers ensures AnswerTraced(known, file, a) {
      if a !in s.answers { AnswerOnArrivalIsTraced(s, e, known, file, a); }
    }
  }

  lemma RecordKeepsTrace(s: Gate, id: CallId, known: Ledger, file: map<Key, DiskRecord>)
    requires Inv(s) && Traced(s, known, file)
    ensures Traced(Step(s, Records(id)), known, file)
  {
    var t := Step(s, Records(id));
    if t != s {
      var c := s.calls[id];
      assert CallTraced(s, known, id) && CallOk(s, id);
      assert t.store.memory.Some?;
      forall i ensures CallTraced(t, known, i) { assert CallTraced(s, known, i); }
      forall k | k in t.store.memory.value ensures Stems(known, file, k, t.store.memory.value[k]) {
        if k in s.store.memory.value { assert Stems(known, file, k, s.store.memory.value[k]); }
        if k == c.key { assert GaveIt(known, id, k, t.store.memory.value[k]); }
      }
      forall a | a in t.answers ensures AnswerTraced(known, file, a) {
        assert a in s.answers;
      }
    }
  }

  lemma ReplyKeepsTrace(s: Gate, id: CallId, known: Ledger, file: map<Key, DiskRecord>)
    requires Inv(s) && Traced(s, known, file)
    ensures Traced(Step(s, Replies(id)), known, file)
  {
    var t := Step(s, Replies(id));
    assert CallTraced(s, known, id);
    forall i ensures CallTraced(t, known, i) { assert CallTraced(s, known, i); }
    forall a | a in t.answers ensures AnswerTraced(known, file, a) {
      if a !in s.answers { assert a == t.answers[|s.answers|]; }
    }
  }

  lemma LandingKeepsTrace(s: Gate, known: Ledger, file: map<Key, DiskRecord>)
    requires Traced(s, known, file)
    ensures Traced(Step(s, WriteLands), known, file)
  {
    var t := Step(s, WriteLands);
    if t != s {
      var snapshot := s.store.running.value.snapshot;
      forall i ensures CallTraced(t, known, i) { assert CallTraced(s, known, i); }
      forall k | k in t.store.file && LoadedEntry(t.store.file[k]).Some?
        ensures Stems(known, file, k, LoadedEntry(t.store.file[k]).value)
      {
        assert Stems(known, file, k, snapshot[k]);
      }
    }
  }

  lemma StartingKeepsTrace(s: Gate, known: Ledger, file: map<Key, DiskRecord>)
    requires Traced(s, known, file)
    ensures Traced(Step(s, WriteStarts), known, file)
  {
    var t := Step(s, WriteStarts);
    forall i ensures CallTraced(t, known, i) { assert CallTraced(s, known, i); }
  }

  lemma SettlingKeepsTrace(s: Gate, known: Ledger, file: map<Key, DiskRecord>)
    requires Inv(s) && Traced(s, known, file)
    ensures Traced(Step(s, WriteSettles), known, file)
  {
    var t := Step(s, WriteSettles);
    forall i ensures CallTraced(t, known, i) { assert CallTraced(s, known, i) && CallOk(s, i); }
    forall a | a in t.answers ensures AnswerTraced(known, file, a) {
      if a !in s.answers { assert a == t.answers[|s.answers|]; }
    }
  }

  lemma FailingKeepsTrace(s: Gate, known: Ledger, file: map<Key, DiskRecord>)
    requires Inv(s) && Traced(s, known, file)
    ensures Traced(Step(s, WriteFails), known, file)
  {
    var t := Step(s, WriteFails);
    forall i ensures CallTraced(t, known, i) { assert CallTraced(s, known, i) && CallOk(s, i); }
    forall a | a in t.answers ensures AnswerTraced(known, file, a) {
      if a !in s.answers { assert a == t.answers[|s.answers|]; }
    }
  }

  lemma LifeKeepsTrace(s: Gate, e: Event, known: Ledger, file: map<Key, DiskRecord>)
    requires Inv(s) && Traced(s, known, file) && (e.Load? || e.Crash? || e.Invokes?)
    ensures Traced(Step(s, e), known, file)
  {
    var t := Step(s, e);
    forall i ensures CallTraced(t, known, i) { assert CallTraced(s, known, i); }
  }

  lemma GivingUpKeepsTrace(s: Gate, e: Event, known: Ledger, file: map<Key, DiskRecord>)
    requires Inv(s) && Traced(s, known, file) && (e.RollsBack? || e.GivesUp? || e.MappingThrows?)
    ensures Traced(Step(s, e), known, file)
  {
    var t := Step(s, e);
    forall i ensures CallTraced(t, known, i) { assert CallTraced(s, known, i); }
    forall a | a in t.answers ensures AnswerTraced(known, file, a) {
      if a !in s.answers { assert a == t.answers[|s.answers|]; }
    }
  }

  lemma StepKeepsTrace(s: Gate, e: Event, known: Ledger, file: map<Key, DiskRecord>)
    requires Inv(s) && Traced(s, known, file)
    ensures Traced(Step(s, e), Noted(s, e, known), file)
  {
    match e
    case Load => LifeKeepsTrace(s, e, known, file);
    case Crash => LifeKeepsTrace(s, e, known, file);
    case Invokes(_) => LifeKeepsTrace(s, e, known, file);
    case ApplyArrives(_, _, _) => ArrivalKeepsTrace(s, e, known, file);
    case LookupArrives(_, _) => ArrivalKeepsTrace(s, e, known, file);
    case TransportReturns(_, _) => ReturnKeepsTrace(s, e, known, file);
    case Records(id) => RecordKeepsTrace(s, id, known, file);
    case Replies(id) => ReplyKeepsTrace(s, id, known, file);
    case WriteStarts => StartingKeepsTrace(s, known, file);
    case WriteLands => LandingKeepsTrace(s, known, file);
    case WriteSettles => SettlingKeepsTrace(s, known, file);
    case WriteFails => FailingKeepsTrace(s, known, file);
    case RollsBack(_) => GivingUpKeepsTrace(s, e, known, file);
    case GivesUp(_) => GivingUpKeepsTrace(s, e, known, file);
    case MappingThrows(_) => GivingUpKeepsTrace(s, e, known, file);
  }

  lemma {:induction false} RunKeepsTrace(s: Gate, events: seq<Event>, known: Ledger, file: map<Key, DiskRecord>)
    requires Inv(s) && Traced(s, known, file)
    ensures Traced(Run(s, events), LedgerOf(s, events, known), file)
    decreases |events|
  {
    if events != [] {
      StepKeepsTrace(s, events[0], known, file);
      StepKeepsInv(s, events[0]);
      RunKeepsTrace(Step(s, events[0]), events[1..], Noted(s, events[0], known), file);
    }
  }

  lemma {:induction false} EveryRunIsTraced(s: Gate, events: seq<Event>)
    requires Initial(s)
    ensures Inv(Run(s, events)) && Traced(Run(s, events), LedgerOf(s, events, map[]), s.store.file)
  {
    InitialInv(s);
    RunKeepsInv(s, events);
    forall id ensures CallTraced(s, map[], id) { }
    RunKeepsTrace(s, events, map[], s.store.file);
  }

  // ---------------------------------------------------------------------------------------------
  // The promises
  // ---------------------------------------------------------------------------------------------

  /** In every run, the caller that ran the operation is told a result exactly when its own transport
      call succeeded, and that result; a failure exactly when it failed, and that failure. A refused
      call is never told that it performed anything. */
  lemma {:induction false} CallersAreToldTheOutcome(s: Gate, events: seq<Event>, a: Answer)
    requires Initial(s)
    requires a in Run(s, events).answers && a.reply.Performed?
    ensures var known := LedgerOf(s, events, map[]);
            && a.id in known && known[a.id].key == a.key && known[a.id].descriptor == a.descriptor
            && (forall p :: a.reply.entry == Done(a.descriptor, p) <==> known[a.id].outcome == Success(p))
            && (forall f :: a.reply.entry == Failed(a.descriptor, f) <==> known[a.id].outcome == TransportFailed(f))
            && (a.reply.entry.Done? || a.reply.entry.Failed?)
            && !known[a.id].outcome.RefusedByTransport?
  {
    EveryRunIsTraced(s, events);
    assert AnswerTraced(LedgerOf(s, events, map[]), s.store.file, a);
  }

  /** `result` is stored under `key` with `d` in the file the run began with. */
  predicate WasOnFile(s: Gate, key: Key, e: Entry) {
    key in s.store.file && s.store.file[key] == Written(e)
  }

  /** A call of `key` with descriptor `d` had this outcome in the run. */
  ghost predicate TransportGave(known: Ledger, key: Key, d: Descriptor, o: Outcome) {
    exists id :: id in known && known[id] == Report(key, d, o)
  }

  /** In every run, whatever is replayed as a result was returned by the transport for that very
      actionRequestId and descriptor, or stood in the file the run began with. */
  lemma {:induction false} ReplaysAreResults(s: Gate, events: seq<Event>, a: Answer, p: Payload)
    requires Initial(s) && a in Run(s, events).answers
    requires a.reply == Repeated(Replay(p)) || a.reply == Found(FoundReplay(p))
    ensures WasOnFile(s, a.key, Done(a.descriptor, p))
            || TransportGave(LedgerOf(s, events, map[]), a.key, a.descriptor, Success(p))
  {
    EveryRunIsTraced(s, events);
    var known := LedgerOf(s, events, map[]);
    assert AnswerTraced(known, s.store.file, a);
    StemsFromTransport(s, known, a.key, Done(a.descriptor, p));
  }

  /** The same of failures; an apply may also be told that it came after the key was closed. */
  lemma {:induction false} RepeatedFailuresAreFailures(s: Gate, events: seq<Event>, a: Answer, f: StoredFailure)
    requires Initial(s) && a in Run(s, events).answers
    requires a.reply == Repeated(KnownFailure(f)) || a.reply == Found(FoundFailure(f))
    ensures WasOnFile(s, a.key, Failed(a.descriptor, f))
            || TransportGave(LedgerOf(s, events, map[]), a.key, a.descriptor, TransportFailed(f))
            || (a.reply.Repeated? && f == NotReceivedFailure(a.key))
  {
    EveryRunIsTraced(s, events);
    var known := LedgerOf(s, events, map[]);
    assert AnswerTraced(known, s.store.file, a);
    if f != NotReceivedFailure(a.key) || a.reply.Found? {
      StemsFromTransport(s, known, a.key, Failed(a.descriptor, f));
    }
  }

  lemma StemsFromTransport(s: Gate, known: Ledger, key: Key, e: Entry)
    requires Stems(known, s.store.file, key, e) && (e.Done? || e.Failed?)
    ensures WasOnFile(s, key, e)
            || TransportGave(known, key, e.descriptor, if e.Done? then Success(e.payload) else TransportFailed(e.failure))
  {
    if id :| GaveIt(known, id, key, e) {
      assert known[id].key == key;
    }
  }

  /** The same of the file at every moment of a run: a crash finds only what the transport gave. */
  lemma {:induction false} FileHoldsOutcomes(s: Gate, events: seq<Event>, key: Key, e: Entry)
    requires Initial(s) && key in Run(s, events).store.file && Run(s, events).store.file[key] == Written(e)
    requires e.Done? || e.Failed?
    ensures WasOnFile(s, key, e)
            || TransportGave(LedgerOf(s, events, map[]), key, e.descriptor,
                             if e.Done? then Success(e.payload) else TransportFailed(e.failure))
  {
    EveryRunIsTraced(s, events);
    StemsFromTransport(s, LedgerOf(s, events, map[]), key, e);
  }

  // ---------------------------------------------------------------------------------------------
  // Arrivals
  // ---------------------------------------------------------------------------------------------

  /** `t` is `s` after a call arrived that was answered `reply` on the spot. */
  predicate AnsweredAtOnce(s: Gate, t: Gate, key: Key, d: Descriptor, reply: Reply) {
    t == s.(nextId := s.nextId + 1, answers := s.answers + [Answer(s.nextId, key, d, reply)])
  }

  /** While one call of a key is on its way to the transport or back, every other apply of it is a
      conflict, and a lookup says so too or, for the same descriptor, that it is still pending. */
  lemma ConcurrentCallsConflict(s: Gate, id: CallId, d: Descriptor, approved: bool)
    requires Inv(s) && id in s.calls && PendingPhase(s.calls[id].phase)
    ensures var c := s.calls[id];
            && AnsweredAtOnce(s, Step(s, ApplyArrives(c.key, d, approved)), c.key, d, Repeated(Conflict))
            && AnsweredAtOnce(s, Step(s, LookupArrives(c.key, d)), c.key, d,
                              Found(if d == c.descriptor then StillPending else FoundConflict))
  {
    assert CallOk(s, id);
  }

  /** A key that holds anything else answers at once with what it holds, whoever asks; a call closed
      out is told for certain that nothing ran. */
  lemma HeldKeysAnswer(s: Gate, key: Key, d: Descriptor, approved: bool)
    requires InMemory(s, key).Some? && !InMemory(s, key).value.Pending?
    ensures var t := Step(s, ApplyArrives(key, d, approved));
            && |t.answers| == |s.answers| + 1
            && var a := t.answers[|s.answers|];
            && a.reply.Repeated? && AnsweredAtOnce(s, t, key, d, a.reply)
            && AgreesWith(a, InMemory(s, key).value)
            && (InMemory(s, key).value.NotReceived? && a.reply.result.KnownFailure? ==>
                  !a.reply.result.failure.outcomeUnknown)
    ensures var t := Step(s, LookupArrives(key, d));
            && |t.answers| == |s.answers| + 1
            && var a := t.answers[|s.answers|];
            && a.reply.Found? && AnsweredAtOnce(s, t, key, d, a.reply)
            && AgreesWith(a, InMemory(s, key).value)
  {
    var e := InMemory(s, key).value;
    var t, u := Step(s, ApplyArrives(key, d, approved)), Step(s, LookupArrives(key, d));
    var result, found := t.answers[|s.answers|].reply, u.answers[|s.answers|].reply;
    if e.descriptor == d {
      match e
      case Orphaned(_) => assert result == Repeated(Unknown) && found == Found(FoundUnknown);
      case NotReceived(_) => assert result == Repeated(KnownFailure(NotReceivedFailure(key))) && found == Found(Absent);
      case Failed(_, f) => assert result == Repeated(KnownFailure(f)) && found == Found(FoundFailure(f));
      case Done(_, p) => assert result == Repeated(Replay(p)) && found == Found(FoundReplay(p));
    }
  }

  /** `t` is `s` after call `c` took a free key: it holds `e` in memory and its write is in the chain. */
  predicate Took(s: Gate, t: Gate, c: Call, e: Entry) {
    && s.store.memory.Some?
    && t == s.(nextId := s.nextId + 1, calls := s.calls[s.nextId := c], store := t.store)
    && t.store == s.store.(memory := Some(s.store.memory.value[c.key := e]), queue := s.store.queue + [s.nextId])
  }

  /** A free key is taken by whoever comes first: reserved by an apply, closed by a lookup. */
  lemma FreeKeysAreTaken(s: Gate, key: Key, d: Descriptor, approved: bool)
    requires s.store.memory.Some? && InMemory(s, key).None?
    ensures Took(s, Step(s, ApplyArrives(key, d, approved)), Call(key, d, approved, Reserving), Pending(d))
    ensures Took(s, Step(s, LookupArrives(key, d)), Call(key, d, false, Closing), NotReceived(d))
  {
  }

  // ---------------------------------------------------------------------------------------------
  // When the transport is called, and when a key is freed
  // ---------------------------------------------------------------------------------------------

  /** The transport is called only by an approved call whose reservation is already in the file: a
      process that dies at any later moment leaves a file that says the outcome is unknown. */
  lemma InvokedOnlyReserved(s: Gate, e: Event, id: CallId)
    requires Inv(s) && id in Step(s, e).invoked && id !in s.invoked
    ensures id in s.calls && s.calls[id].approved
    ensures Step(s, e).invoked[id] == Invocation(s.calls[id].key, false)
    ensures OnFile(s, s.calls[id].key) == Some(Orphaned(s.calls[id].descriptor))
  {
    assert CallOk(s, id);
  }

  /** A call that ran nothing frees its key: its definition was not approved, its credential failed,
      the transport refused it, or its reservation or closing could not be written. */
  lemma NothingRunFreesTheKey(s: Gate, id: CallId)
    requires Inv(s) && id in s.calls
    requires s.store.memory.Some?
    ensures var k := s.calls[id].key;
            && (s.calls[id].phase.Owned? ==> InMemory(Step(s, GivesUp(id)), k).None?)
            && (s.calls[id].phase == Returned(RefusedByTransport) ==> InMemory(Step(s, Records(id)), k).None?)
            && (s.calls[id].phase.ReserveFailed? || s.calls[id].phase.CloseFailed? ==>
                  InMemory(Step(s, RollsBack(id)), k).None?)
  {
    assert CallOk(s, id);
  }

  // ---------------------------------------------------------------------------------------------
  // Nothing stands in the way of the answer
  // ---------------------------------------------------------------------------------------------

  /** From `s`, events lead to an answer for call `id` that tells what the transport did. */
  ghost predicate LeadsToReport(s: Gate, events: seq<Event>, id: CallId, o: Outcome) {
    id in s.calls &&
    exists a :: a in Run(s, events).answers && a.id == id && a.key == s.calls[id].key
                && a.reply.Performed? && Reports(a.reply.entry, s.calls[id].descriptor, o)
  }

  /** A recorded outcome is written and answered, whatever writes are ahead of it. */
  lemma {:induction false} RecordingIsAnswered(s: Gate, id: CallId, o: Outcome) returns (events: seq<Event>)
    requires Inv(s) && id in s.calls && s.calls[id].phase.Recording?
    requires Reports(s.calls[id].phase.entry, s.calls[id].descriptor, o)
    ensures LeadsToReport(s, events, id, o)
    decreases WritesAhead(s)
  {
    assert CallOk(s, id);
    var c := s.calls[id];
    var answer := Answer(id, c.key, c.descriptor, Performed(c.phase.entry));
    if s.store.running.Some? && s.store.running.value.id == id {
      if s.store.running.value.landed {
        events := [WriteSettles, Replies(id)];
        RunTwo(s, WriteSettles, Replies(id));
      } else {
        var t := Step(s, WriteLands);
        events := [WriteLands] + [WriteSettles, Replies(id)];
        RunAppend(s, [WriteLands], [WriteSettles, Replies(id)]);
        RunOne(s, WriteLands);
        RunTwo(t, WriteSettles, Replies(id));
      }
      assert Run(s, events).answers == s.answers + [answer];
      assert answer in Run(s, events).answers;
    } else {
      assert Holds(s, id, c.key);
      ClearHeadSpares(s, id, c.key);
      var rest := RecordingIsAnswered(Run(s, ClearHead(s)), id, o);
      events := ClearHead(s) + rest;
      RunAppend(s, ClearHead(s), rest);
    }
  }

  /** Whatever the transport did, short of a refusal, its caller can still be told: recording keeps the
      outcome, and no other call can take the key in between. */
  lemma OutcomeCanBeAnswered(s: Gate, id: CallId, o: Outcome) returns (events: seq<Event>)
    requires Inv(s) && At(s, id, Returned(o)) && !o.RefusedByTransport?
    ensures LeadsToReport(s, events, id, o)
  {
    assert CallOk(s, id);
    var t := Step(s, Records(id));
    StepKeepsInv(s, Records(id));
    var rest := RecordingIsAnswered(t, id, o);
    events := [Records(id)] + rest;
    RunAppend(s, [Records(id)], rest);
    RunOne(s, Records(id));
  }

  /** From `s`, events lead to the answer that call `id`, a lookup, closed the key. */
  ghost predicate LeadsToClosed(s: Gate, events: seq<Event>, id: CallId) {
    id in s.calls && Answer(id, s.calls[id].key, s.calls[id].descriptor, ClosedNow) in Run(s, events).answers
  }

  /** A lookup that closed its key can still be answered "not received", whatever writes are ahead. */
  lemma {:induction false} ClosingIsAnswered(s: Gate, id: CallId) returns (events: seq<Event>)
    requires Inv(s) && At(s, id, Closing)
    ensures LeadsToClosed(s, events, id)
    decreases WritesAhead(s)
  {
    assert CallOk(s, id);
    var c := s.calls[id];
    if s.store.running.Some? && s.store.running.value.id == id {
      if s.store.running.value.landed {
        events := [WriteSettles, Replies(id)];
        RunTwo(s, WriteSettles, Replies(id));
      } else {
        var t := Step(s, WriteLands);
        events := [WriteLands] + [WriteSettles, Replies(id)];
        RunAppend(s, [WriteLands], [WriteSettles, Replies(id)]);
        RunOne(s, WriteLands);
        RunTwo(t, WriteSettles, Replies(id));
      }
      assert Run(s, events).answers == s.answers + [Answer(id, c.key, c.descriptor, ClosedNow)];
    } else {
      assert Holds(s, id, c.key);
      ClearHeadSpares(s, id, c.key);
      var rest := ClosingIsAnswered(Run(s, ClearHead(s)), id);
      events := ClearHead(s) + rest;
      RunAppend(s, ClearHead(s), rest);
    }
  }

  // ---------------------------------------------------------------------------------------------
  // One answer each
  // ---------------------------------------------------------------------------------------------

  /** A call under way is answered by one step at most: that it performed exactly if its record is written,
      that the key is closed now exactly if its closing is, and with an error otherwise: refused, given up,
      or a write failed. */
  lemma AnswersUnderWay(s: Gate, e: Event)
    requires !e.ApplyArrives? && !e.LookupArrives? && Step(s, e).answers != s.answers
    ensures |Step(s, e).answers| == |s.answers| + 1 && s.answers <= Step(s, e).answers
    ensures var a := Step(s, e).answers[|s.answers|];
            && a.id in s.calls && a.key == s.calls[a.id].key && a.descriptor == s.calls[a.id].descriptor
            && a.reply == match s.calls[a.id].phase
                          case Recorded(entry) => Performed(entry)
                          case Closed => ClosedNow
                          case _ => Error
  {
    AnswersOnlyItsCall(s, e);
  }

  /** Whoever was answered is not under way any more, and was answered once. */
  ghost predicate AnsweredOnce(s: Gate) {
    && (forall i :: 0 <= i < |s.answers| ==> s.answers[i].id < s.nextId && s.answers[i].id !in s.calls)
    && (forall i, j :: 0 <= i < j < |s.answers| ==> s.answers[i].id != s.answers[j].id)
  }

  lemma StepAnswersOnce(s: Gate, e: Event)
    requires Inv(s) && AnsweredOnce(s)
    ensures AnsweredOnce(Step(s, e))
  {
    var t := Step(s, e);
    assert CallOk(s, s.nextId);
    if e.ApplyArrives? || e.LookupArrives? {
    } else {
      AnswersOnlyItsCall(s, e);
      CallsKeepTheirKeys(s, e);
      if t.answers != s.answers { AnsweredCallIsGone(s, e); }
    }
  }

  lemma AnsweredCallIsGone(s: Gate, e: Event)
    requires Inv(s) && !e.ApplyArrives? && !e.LookupArrives? && |Step(s, e).answers| > |s.answers|
    ensures var a := Step(s, e).answers[|s.answers|];
            a.id in s.calls && a.id < s.nextId && a.id !in Step(s, e).calls
  {
    var a := Step(s, e).answers[|s.answers|];
    assert CallOk(s, a.id);
  }

  lemma {:induction false} RunAnswersOnce(s: Gate, events: seq<Event>)
    requires Inv(s) && AnsweredOnce(s)
    ensures AnsweredOnce(Run(s, events))
    decreases |events|
  {
    if events != [] {
      StepAnswersOnce(s, events[0]);
      StepKeepsInv(s, events[0]);
      RunAnswersOnce(Step(s, events[0]), events[1..]);
    }
  }

  /** In every run, no call is answered twice, and none goes on after its answer. */
  lemma {:induction false} CallsAreAnsweredOnce(s: Gate, events: seq<Event>)
    requires Initial(s)
    ensures AnsweredOnce(Run(s, events))
  {
    InitialInv(s);
    RunAnswersOnce(s, events);
  }
}

/** What the gate promises its callers over whole runs: calls interleaved in any way, writes failing,
    crashes and restarts. */
module GateProperties {
  import opened Wrappers
  import opened IdempotencyStore
  import opened GateProtocol

  lemma RunKeepsInv(s: Gate, events: seq<Event>)
    requires Inv(s)
    ensures Inv(Run(s, events))
    decreases |events|
  {
    if events != [] {
      StepKeepsInv(s, events[0]);
      RunKeepsInv(Step(s, events[0]), events[1..]);
    }
  }

  lemma {:induction false} RunAppend(s: Gate, first: seq<Event>, second: seq<Event>)
    ensures Run(s, first + second) == Run(Run(s, first), second)
    decreases |first|
  {
    if first == [] {
      assert first + second == second;
    } else {
      assert (first + second)[1..] == first[1..] + second;
      RunAppend(Step(s, first[0]), first[1..], second);
    }
  }

  /** In every run from any file, the transport is invoked at most once per actionRequestId, not
      counting invocations that ended in a refusal. */
  lemma TransportRunsAtMostOnce(s: Gate, events: seq<Event>)
    requires Initial(s)
    ensures AtMostOnce(Run(s, events))
  {
    InitialInv(s);
    RunKeepsInv(s, events);
  }

  /** One call never invokes the transport twice, so `invoked` never loses an invocation. */
  lemma EachCallInvokesOnce(s: Gate, id: CallId)
    requires Inv(s) && At(s, id, Owned)
    ensures id !in s.invoked
  {
    assert CallOk(s, id);
  }

  // ---------------------------------------------------------------------------------------------
  // Final answers
  // ---------------------------------------------------------------------------------------------

  /** The one answer a key that holds `e` for good gives to a call that only arrives now: a conflict for
      any other descriptor, and what is stored for its own. */
  predicate AgreesWith(a: Answer, e: Entry) {
    if a.descriptor != e.descriptor then a.reply == Repeated(Conflict) || a.reply == Found(FoundConflict)
    else
      match e
      case Done(_, payload) => a.reply == Repeated(Replay(payload)) || a.reply == Found(FoundReplay(payload))
      case Failed(_, failure) => a.reply == Repeated(KnownFailure(failure)) || a.reply == Found(FoundFailure(failure))
      case NotReceived(_) => a.reply == Repeated(KnownFailure(NotReceivedFailure(a.key))) || a.reply == Found(Absent)
      case Orphaned(_) => a.reply == Repeated(Unknown) || a.reply == Found(FoundUnknown)
      case Pending(_) => false
  }

  /** From `s` to `t`, calls numbered `from` on got only answers that agree with `e`, and the
      transport was not invoked for `key`. */
  ghost predicate OnlyAgreement(s: Gate, t: Gate, key: Key, e: Entry, from: CallId) {
    && s.answers <= t.answers
    && (forall i :: |s.answers| <= i < |t.answers| && t.answers[i].key == key && t.answers[i].id >= from
                    ==> AgreesWith(t.answers[i], e))
    && (forall id :: id in t.invoked && id !in s.invoked ==> t.invoked[id].key != key)
    && (forall id :: id in s.invoked ==> id in t.invoked && t.invoked[id].key == s.invoked[id].key)
    && s.nextId <= t.nextId
  }

  lemma FinalThroughWrites(s: Gate, e: Event, key: Key, entry: Entry)
    requires Inv(s) && Final(s, key, entry)
    requires e.WriteStarts? || e.WriteLands? || e.WriteSettles? || e.WriteFails?
    ensures Final(Step(s, e), key, entry)
  {
    var t := Step(s, e);
    if s.store.running.Some? {
      assert Waits(s, s.store.running.value.id) && CallOk(s, s.store.running.value.id);
    }
    forall id ensures !Claims(t, id, key) {
      assert !Claims(s, id, key);
      assert CallOk(s, id);
    }
  }

  lemma FinalThroughCalls(s: Gate, e: Event, key: Key, entry: Entry)
    requires Inv(s) && Final(s, key, entry)
    requires e.RollsBack? || e.GivesUp? || e.Records?
    ensures Final(Step(s, e), key, entry)
  {
    var t := Step(s, e);
    assert CallOk(s, e.id) && !Claims(s, e.id, key);
    if t != s {
      Elsewhere(s.calls, t.calls, e.id);
      forall id ensures !Claims(t, id, key) {
        assert !Claims(s, id, key);
      }
    }
  }

  lemma FinalStep(s: Gate, e: Event, key: Key, entry: Entry)
    requires Inv(s) && Final(s, key, entry)
    ensures Final(Step(s, e), key, entry)
  {
    if e.WriteStarts? || e.WriteLands? || e.WriteSettles? || e.WriteFails? {
      FinalThroughWrites(s, e, key, entry);
    } else if e.RollsBack? || e.GivesUp? || e.Records? {
      FinalThroughCalls(s, e, key, entry);
    } else {
      var t := Step(s, e);
      forall id ensures !Claims(t, id, key) {
        assert !Claims(s, id, key);
      }
    }
  }

  lemma AgreementOnArrival(s: Gate, e: Event, key: Key, entry: Entry, from: CallId)
    requires Inv(s) && Final(s, key, entry) && from <= s.nextId
    requires e.ApplyArrives? || e.LookupArrives?
    requires forall id :: id in s.calls && s.calls[id].key == key ==> id < from
    ensures OnlyAgreement(s, Step(s, e), key, entry, from)
    ensures forall id :: id in Step(s, e).calls && Step(s, e).calls[id].key == key ==> id < from
  {
  }

  /** The transport is never invoked for a key that is final. */
  lemma NoNewInvocation(s: Gate, e: Event, key: Key, entry: Entry)
    requires Inv(s) && Final(s, key, entry)
    ensures var t := Step(s, e);
            && (forall id :: id in t.invoked && id !in s.invoked ==> t.invoked[id].key != key)
            && (forall id :: id in s.invoked ==> id in t.invoked && t.invoked[id].key == s.invoked[id].key)
  {
    if e.Invokes? {
      assert !Claims(s, e.id, key) && CallOk(s, e.id);
    }
  }

  lemma CallsKeepTheirKeys(s: Gate, e: Event)
    requires !e.ApplyArrives? && !e.LookupArrives?
    ensures Step(s, e).nextId == s.nextId
    ensures forall id :: id in Step(s, e).calls ==> id in s.calls && Step(s, e).calls[id].key == s.calls[id].key
  {
  }

  /** A step of a call already under way may only answer that call. */
  lemma AgreementOtherwise(s: Gate, e: Event, key: Key, entry: Entry, from: CallId)
    requires Inv(s) && Final(s, key, entry) && from <= s.nextId
    requires !e.ApplyArrives? && !e.LookupArrives?
    requires forall id :: id in s.calls && s.calls[id].key == key ==> id < from
    ensures OnlyAgreement(s, Step(s, e), key, entry, from)
    ensures forall id :: id in Step(s, e).calls && Step(s, e).calls[id].key == key ==> id < from
  {
    AnswersOnlyItsCall(s, e);
    NoNewInvocation(s, e, key, entry);
    CallsKeepTheirKeys(s, e);
  }

  lemma AnswersOnlyItsCall(s: Gate, e: Event)
    requires !e.ApplyArrives? && !e.LookupArrives?
    ensures Step(s, e).answers == s.answers
            || exists id, r :: id in s.calls
                               && Step(s, e).answers == s.answers + [Answer(id, s.calls[id].key, s.calls[id].descriptor, r)]
  {
  }

  lemma {:induction false} FinalRun(s: Gate, events: seq<Event>, key: Key, entry: Entry, from: CallId)
    requires Inv(s) && Final(s, key, entry) && from <= s.nextId
    requires forall id :: id in s.calls && s.calls[id].key == key ==> id < from
    ensures Final(Run(s, events), key, entry)
    ensures OnlyAgreement(s, Run(s, events), key, entry, from)
    decreases |events|
  {
    if events != [] {
      var m := Step(s, events[0]);
      StepKeepsInv(s, events[0]);
      FinalStep(s, events[0], key, entry);
      if events[0].ApplyArrives? || events[0].LookupArrives? {
        AgreementOnArrival(s, events[0], key, entry, from);
      } else {
        AgreementOtherwise(s, events[0], key, entry, from);
      }
      FinalRun(m, events[1..], key, entry, from);
    }
  }

  /** A final entry stays final through every later run, crashes included: whoever asks from now on
      gets the same answer for the same descriptor and a conflict for any other, and the transport is
      never invoked for the key. */
  lemma FinalIsForever(s: Gate, events: seq<Event>, key: Key, entry: Entry)
    requires Inv(s) && Final(s, key, entry)
    ensures Final(Run(s, events), key, entry)
    ensures OnlyAgreement(s, Run(s, events), key, entry, s.nextId)
  {
    forall id | id in s.calls ensures id < s.nextId { assert CallOk(s, id); }
    FinalRun(s, events, key, entry, s.nextId);
  }

  /** The moment a result, a failure or an orphaned reservation is in the file, it is final. */
  lemma LandedResultIsFinal(s: Gate, key: Key)
    requires Inv(s) && s.store.running.Some? && !s.store.running.value.landed
    requires InSnapshot(s, key).Some?
    requires var e := InSnapshot(s, key).value; e.Done? || e.Failed? || e.Orphaned?
    ensures Final(Step(s, WriteLands), key, InSnapshot(s, key).value)
  {
    assert KeyOk(s, key);
    var t := Step(s, WriteLands);
    forall id ensures !Claims(t, id, key) { assert CallOk(s, id); }
  }

  /** The moment a lookup's own closing write lands, the closing is final. */
  lemma LandedClosingIsFinal(s: Gate)
    requires Inv(s) && s.store.running.Some? && !s.store.running.value.landed
    requires At(s, s.store.running.value.id, Closing)
    ensures var c := s.calls[s.store.running.value.id];
            Final(Step(s, WriteLands), c.key, NotReceived(c.descriptor))
  {
    var id := s.store.running.value.id;
    var c := s.calls[id];
    assert CallOk(s, id) && Holds(s, id, c.key);
    var t := Step(s, WriteLands);
    forall other ensures !Claims(t, other, c.key) {
      assert CallOk(s, other);
      assert Holds(s, other, c.key) ==> other == id;
    }
  }

  /** A reservation found in the file at startup answers "unknown" for good. */
  lemma OrphanIsFinal(s: Gate, key: Key)
    requires Inv(s) && s.store.memory.None?
    requires OnFile(s, key).Some? && OnFile(s, key).value.Orphaned?
    ensures Final(Step(s, Load), key, OnFile(s, key).value)
  {
    forall id ensures !Claims(Step(s, Load), id, key) { assert CallOk(s, id); }
  }

  /** Whoever was answered by the call that ran the operation, or by the lookup that closed the key,
      was told something final. */
  ghost predicate OwnAnswersFinal(s: Gate) {
    forall a :: a in s.answers ==>
      && (a.reply.Performed? ==> Final(s, a.key, a.reply.entry) && a.reply.entry.descriptor == a.descriptor)
      && (a.reply.ClosedNow? ==> Final(s, a.key, NotReceived(a.descriptor)))
  }

  lemma OwnAnswersStep(s: Gate, e: Event)
    requires Inv(s) && OwnAnswersFinal(s)
    ensures OwnAnswersFinal(Step(s, e))
  {
    var t := Step(s, e);
    forall a | a in t.answers
      ensures a.reply.Performed? ==> Final(t, a.key, a.reply.entry) && a.reply.entry.descriptor == a.descriptor
      ensures a.reply.ClosedNow? ==> Final(t, a.key, NotReceived(a.descriptor))
    {
      if a in s.answers {
        if a.reply.Performed? { FinalStep(s, e, a.key, a.reply.entry); }
        if a.reply.ClosedNow? { FinalStep(s, e, a.key, NotReceived(a.descriptor)); }
      } else if a.reply.Performed? || a.reply.ClosedNow? {
        assert e.Replies? && a.key == s.calls[e.id].key && a.descriptor == s.calls[e.id].descriptor;
        assert CallOk(s, e.id);
        AnsweredCallIsFinal(s, e.id);
        FinalStep(s, e, a.key, InMemory(s, a.key).value);
      }
    }
  }

  lemma AnsweredCallIsFinal(s: Gate, id: CallId)
    requires Inv(s) && id in s.calls && (s.calls[id].phase.Recorded? || s.calls[id].phase.Closed?)
    ensures InMemory(s, s.calls[id].key).Some?
    ensures Final(s, s.calls[id].key, InMemory(s, s.calls[id].key).value)
  {
    var c := s.calls[id];
    assert CallOk(s, id) && KeyOk(s, c.key) && Holds(s, id, c.key);
    forall other ensures !Claims(s, other, c.key) {
      assert Holds(s, other, c.key) ==> other == id;
      assert CallOk(s, other);
    }
  }

  lemma {:induction false} OwnAnswersRun(s: Gate, events: seq<Event>)
    requires Inv(s) && OwnAnswersFinal(s)
    ensures OwnAnswersFinal(Run(s, events))
    decreases |events|
  {
    if events != [] {
      StepKeepsInv(s, events[0]);
      OwnAnswersStep(s, events[0]);
      OwnAnswersRun(Step(s, events[0]), events[1..]);
    }
  }

  /** In every run, once the caller that ran the operation has its answer, or a lookup that closed the
      key has said "not received", every later question about that key is answered accordingly. */
  lemma AnswersAreForGood(s: Gate, before: seq<Event>, after: seq<Event>, a: Answer)
    requires Initial(s)
    requires a in Run(s, before).answers && (a.reply.Performed? || a.reply.ClosedNow?)
    ensures var e := if a.reply.Performed? then a.reply.entry else NotReceived(a.descriptor);
            && e.descriptor == a.descriptor
            && OnlyAgreement(Run(s, before), Run(s, before + after), a.key, e, Run(s, before).nextId)
  {
    InitialInv(s);
    RunKeepsInv(s, before);
    OwnAnswersRun(s, before);
    RunAppend(s, before, after);
    var m := Run(s, before);
    FinalIsForever(m, after, a.key, if a.reply.Performed? then a.reply.entry else NotReceived(a.descriptor));
  }

  // ---------------------------------------------------------------------------------------------
  // Answers that are not final, and exactly when
  // ---------------------------------------------------------------------------------------------

  /** Memory may hold a result the file does not: every replay until then can still turn into
      "unknown" after a crash. A result in memory is final exactly when the file already has it. */
  lemma ResultIsFinalIffOnFile(s: Gate, key: Key, e: Entry)
    requires Inv(s) && InMemory(s, key) == Some(e) && (e.Done? || e.Failed?)
    ensures (forall events :: OnlyAgreement(s, Run(s, events), key, e, s.nextId)) <==> OnFile(s, key) == Some(e)
  {
    assert KeyOk(s, key);
    if OnFile(s, key) == Some(e) {
      forall id ensures !Claims(s, id, key) { assert CallOk(s, id); }
      forall events ensures OnlyAgreement(s, Run(s, events), key, e, s.nextId) {
        FinalIsForever(s, events, key, e);
      }
    } else {
      var events := [Crash, Load, ApplyArrives(key, e.descriptor, true)];
      UnknownAfterCrash(s, key, e);
      var a := Run(s, events).answers[|s.answers|];
      assert a.key == key && a.id >= s.nextId && !AgreesWith(a, e);
    }
  }

  lemma UnknownAfterCrash(s: Gate, key: Key, e: Entry)
    requires OnFile(s, key) == Some(Orphaned(e.descriptor))
    ensures Run(s, [Crash, Load, ApplyArrives(key, e.descriptor, true)]).answers
            == s.answers + [Answer(s.nextId, key, e.descriptor, Repeated(Unknown))]
  {
    var down := Step(s, Crash);
    var up := Step(down, Load);
    assert InMemory(up, key) == Some(Orphaned(e.descriptor));
    var last := ApplyArrives(key, e.descriptor, true);
    assert [Crash, Load, last][1..] == [Load, last] && [Load, last][1..] == [last] && [last][1..] == [];
    assert Run(s, [Crash, Load, last]) == Run(down, [Load, last]) == Run(up, [last]) == Run(Step(up, last), []);
  }

  ghost predicate NewlyInvoked(s: Gate, t: Gate, key: Key) {
    exists id :: id in t.invoked && id !in s.invoked && t.invoked[id].key == key
  }

  /** "Not received" answered by a lookup that merely finds the closing of an earlier lookup is no
      promise while that lookup's own write may still fail: the operation can still run afterwards
      exactly when the closing is still claimed by the lookup that made it. */
  lemma AbsentCanStillRunIffClosingClaimed(s: Gate, key: Key, d: Descriptor)
    requires Inv(s) && InMemory(s, key) == Some(NotReceived(d))
    ensures (exists events :: NewlyInvoked(s, Run(s, events), key)) <==> !Unclaimed(s, key)
  {
    if Unclaimed(s, key) {
      assert KeyOk(s, key) && Final(s, key, NotReceived(d));
      forall events ensures !NewlyInvoked(s, Run(s, events), key) {
        FinalIsForever(s, events, key, NotReceived(d));
      }
    } else {
      var c :| Claims(s, c, key);
      assert CallOk(s, c);
      var lose := ClosingLost(s, key, c);
      var m := Run(s, lose);
      RunKeepsInv(s, lose);
      InvokedOnlyGrows(s, lose);
      var arrive := ApplyArrives(key, d, true);
      var n := Step(m, arrive);
      StepKeepsInv(m, arrive);
      var run := ReservationInvokes(n, key, m.nextId);
      assert Run(m, [arrive] + run) == Run(n, run) by { assert ([arrive] + run)[1..] == run; }
      RunAppend(s, lose, [arrive] + run);
      assert NewlyInvoked(s, Run(s, lose + ([arrive] + run)), key) by {
        assert CallOk(m, m.nextId) && InvocationOk(m, m.nextId);
      }
    }
  }

  lemma {:induction false} InvokedOnlyGrows(s: Gate, events: seq<Event>)
    ensures s.invoked.Keys <= Run(s, events).invoked.Keys
    decreases |events|
  {
    if events != [] {
      InvokedOnlyGrows(Step(s, events[0]), events[1..]);
    }
  }

  function WritesAhead(s: Gate): nat {
    2 * |s.store.queue| + (if s.store.running.Some? then 1 else 0)
  }

  /** Gets the write of somebody else out of the way: it settles if it landed, it fails otherwise and
      its caller rolls back. */
  function ClearHead(s: Gate): seq<Event> {
    if s.store.running.None? then [WriteStarts]
    else if s.store.running.value.landed then [WriteSettles]
    else [WriteFails, RollsBack(s.store.running.value.id)]
  }

  lemma RunTwo(s: Gate, a: Event, b: Event)
    ensures Run(s, [a, b]) == Step(Step(s, a), b)
  {
    assert [a, b][1..] == [b] && [b][1..] == [];
    assert Run(Step(s, a), [b]) == Run(Step(Step(s, a), b), []);
  }

  lemma RunOne(s: Gate, a: Event)
    ensures Run(s, [a]) == Step(s, a)
  {
    assert [a][1..] == [];
  }

  ghost predicate Spared(s: Gate, t: Gate, id: CallId, key: Key) {
    && Inv(t) && id in t.calls && id in s.calls && t.calls[id] == s.calls[id] && Waits(t, id)
    && InMemory(t, key) == InMemory(s, key) && t.store.memory.Some?
    && t.invoked == s.invoked && t.nextId == s.nextId
    && WritesAhead(t) < WritesAhead(s)
    && (t.store.running.Some? ==> s.store.running.None? && !t.store.running.value.landed)
  }

  /** Clearing the head leaves a call that waits for another write alone. */
  lemma ClearHeadSpares(s: Gate, id: CallId, key: Key)
    requires Inv(s) && Holds(s, id, key) && Waits(s, id)
    requires s.store.running.Some? ==> s.store.running.value.id != id
    ensures Spared(s, Run(s, ClearHead(s)), id, key)
  {
    assert CallOk(s, id);
    if s.store.running.None? {
      RunOne(s, WriteStarts);
      StepKeepsInv(s, WriteStarts);
    } else if s.store.running.value.landed {
      RunOne(s, WriteSettles);
      StepKeepsInv(s, WriteSettles);
      SettlingSpares(s, id, key);
    } else {
      var head := s.store.running.value.id;
      RunTwo(s, WriteFails, RollsBack(head));
      StepKeepsInv(s, WriteFails);
      StepKeepsInv(Step(s, WriteFails), RollsBack(head));
      FailingSpares(s, id, key);
    }
  }

  lemma SettlingSpares(s: Gate, id: CallId, key: Key)
    requires Inv(s) && Inv(Step(s, WriteSettles)) && Holds(s, id, key) && Waits(s, id)
    requires s.store.running.Some? && s.store.running.value.id != id && s.store.running.value.landed
    ensures Spared(s, Step(s, WriteSettles), id, key)
  {
    assert CallOk(s, id);
  }

  lemma FailingSpares(s: Gate, id: CallId, key: Key)
    requires Inv(s) && Holds(s, id, key) && Waits(s, id)
    requires s.store.running.Some? && s.store.running.value.id != id && !s.store.running.value.landed
    requires Inv(Step(Step(s, WriteFails), RollsBack(s.store.running.value.id)))
    ensures Spared(s, Step(Step(s, WriteFails), RollsBack(s.store.running.value.id)), id, key)
  {
    var head := s.store.running.value.id;
    assert CallOk(s, id);
    assert Waits(s, head) && CallOk(s, head);
    assert Holds(s, head, s.calls[head].key) == (s.calls[head].phase != Releasing);
    var m := Step(s, WriteFails);
    assert m.store == s.store.(running := None) && m.calls[id] == s.calls[id] && m.invoked == s.invoked;
    var t := Step(m, RollsBack(head));
    assert t.invoked == s.invoked && t.nextId == s.nextId && t.calls[id] == s.calls[id];
  }

  /** The closing's write fails and the lookup takes the key out again. */
  lemma {:induction false} ClosingLost(s: Gate, key: Key, c: CallId) returns (events: seq<Event>)
    requires Inv(s) && Claims(s, c, key) && (s.calls[c].phase.Closing? || s.calls[c].phase.CloseFailed?)
    ensures Run(s, events).store.memory.Some? && InMemory(Run(s, events), key).None?
    decreases WritesAhead(s)
  {
    assert CallOk(s, c);
    if s.calls[c].phase.CloseFailed? {
      events := [RollsBack(c)];
      RunOne(s, RollsBack(c));
    } else if s.store.running.Some? && s.store.running.value.id == c {
      events := [WriteFails, RollsBack(c)];
      RunTwo(s, WriteFails, RollsBack(c));
    } else {
      assert Holds(s, c, key);
      ClearHeadSpares(s, c, key);
      var rest := ClosingLost(Run(s, ClearHead(s)), key, c);
      events := ClearHead(s) + rest;
      RunAppend(s, ClearHead(s), rest);
    }
  }

  /** A fresh reservation's write lands and its call goes on to the transport. */
  lemma {:induction false} ReservationInvokes(s: Gate, key: Key, id: CallId) returns (events: seq<Event>)
    requires Inv(s) && At(s, id, Reserving) && s.calls[id].key == key && s.calls[id].approved
    ensures id in Run(s, events).invoked && Run(s, events).invoked[id].key == key
    decreases WritesAhead(s)
  {
    assert CallOk(s, id);
    if s.store.running.Some? && s.store.running.value.id == id {
      if s.store.running.value.landed {
        events := [WriteSettles, Invokes(id)];
        RunTwo(s, WriteSettles, Invokes(id));
      } else {
        var t := Step(s, WriteLands);
        events := [WriteLands] + [WriteSettles, Invokes(id)];
        RunAppend(s, [WriteLands], [WriteSettles, Invokes(id)]);
        RunOne(s, WriteLands);
        RunTwo(t, WriteSettles, Invokes(id));
      }
    } else {
      assert Holds(s, id, key);
      ClearHeadSpares(s, id, key);
      var rest := ReservationInvokes(Run(s, ClearHead(s)), key, id);
      events := ClearHead(s) + rest;
      RunAppend(s, ClearHead(s), rest);
    }
  }
}

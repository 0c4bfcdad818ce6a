/** Exactly when a request starts, waits or is turned away, over every run of the limiter: said on the
    requests that hold slots, the requests that wait and the charges made, not on what an entry keeps. */
module LimiterAdmission {
  import opened Wrappers
  import opened UpstreamLimits
  import opened LimiterRuns

  lemma {:induction false} WithinAll(log: seq<Charge>, from: int, to: int)
    requires forall c :: c in log ==> from <= c.at < to
    ensures Within(log, from, to) == Sum(log)
  {
    if log != [] {
      assert log[0] in log;
      WithinAll(log[1..], from, to);
    }
  }

  /** What is kept after pruning is what the window up to `at` was charged. */
  lemma {:induction false} PrunedIsWindow(log: seq<Charge>, horizon: int, at: int)
    requires Rising(Pruned(log, horizon)) && forall c :: c in Pruned(log, horizon) ==> c.at <= at
    ensures Within(log, horizon + 1, at + 1) == Sum(Pruned(log, horizon))
  {
    if log != [] {
      if log[0].at <= horizon {
        PrunedIsWindow(log[1..], horizon, at);
      } else {
        forall c | c in log ensures horizon < c.at <= at {
          var i :| 0 <= i < |log| && log[i] == c;
          assert i > 0 ==> log[0].at <= log[i].at;
        }
        WithinAll(log, horizon + 1, at + 1);
      }
    }
  }

  /** The charges of the `windowMs` up to `at`, and `cost` more, are within the budget. */
  predicate Affordable(limits: Limits, log: seq<Charge>, at: int, cost: nat) {
    Within(log, at - limits.windowMs + 1, at + 1) + cost <= limits.budget
  }

  lemma FitsIsAffordable(limits: Limits, charges: seq<Charge>, log: seq<Charge>, clock: int, at: int, cost: nat)
    requires ChargesOk(limits, charges, log, clock) && at >= clock
    ensures Fits(limits, charges, at, cost) <==> Affordable(limits, log, at, cost)
  {
    var horizon := at - limits.windowMs;
    PrunedLater(charges, log, clock - limits.windowMs, horizon);
    PrunedFacts(charges, horizon);
    PrunedIsWindow(log, horizon, at);
  }

  lemma {:induction false} DistinctSize(ids: seq<CallId>, all: set<CallId>)
    requires Distinct(ids) && forall id :: id in ids <==> id in all
    ensures |all| == |ids|
  {
    if ids == [] {
      assert all == {};
    } else {
      assert ids == [ids[0]] + ids[1..];
      DistinctSize(ids[1..], all - {ids[0]});
    }
  }

  /** A request that comes in starts if and only if a slot is free and the budget allows its cost; it waits
      if and only if no slot is free and the queue has room; otherwise it is turned away. Only a request
      that starts is charged. */
  ghost predicate Admitted(limits: Limits, before: Book, after: Book, id: CallId, cost: nat, at: int) {
    id in after.calls &&
    var free := |Holders(before.calls)| < limits.maxConcurrent;
    var phase := after.calls[id].phase;
    && (phase.Running? <==> free && Affordable(limits, before.log, at, cost))
    && (phase.Waiting? <==> !free && |Waiters(before.calls)| < limits.maxQueued)
    && !phase.Handed?
    && after.calls == before.calls[id := after.calls[id]]
    && after.log == before.log + (if phase.Running? then [Charge(at, cost)] else [])
    && after.queued == before.queued + (if phase.Waiting? then [id] else [])
    && after.granted == before.granted
  }

  lemma EntryIsOk(limits: Limits, w: World, actor: string)
    requires ActorOk(w, limits, actor)
    ensures var a, book := EntryOf(w, actor), BookOf(w, actor);
            SlotsOk(limits, a, book) && ChargesOk(limits, a.charges, book.log, w.clock)
  {
  }

  lemma EnteredIsAdmitted(limits: Limits, a: Actor, book: Book, id: CallId, call: Call, at: int)
    requires a.running == |Holders(book.calls)| && |a.waiting| == |Waiters(book.calls)|
    requires a.waiting != [] ==> a.running == limits.maxConcurrent
    requires Fits(limits, a.charges, at, call.cost) <==> Affordable(limits, book.log, at, call.cost)
    ensures Admitted(limits, book, After(book, id, call, Entered(limits, a, id, at, call.cost), at), id, call.cost, at)
  {
  }

  lemma NewcomersAreAdmittedIff(limits: Limits, events: seq<Event>, actor: string, id: CallId, cost: nat, at: int)
    requires var w := Run(EMPTY, limits, events); id !in BookOf(w, actor).calls && at >= w.clock
    ensures var w := Run(EMPTY, limits, events);
            var u := Step(w, limits, Begin(actor, id, cost, at));
            Admitted(limits, BookOf(w, actor), BookOf(u, actor), id, cost, at)
  {
    ReachedActor(limits, events, actor);
    var w := Run(EMPTY, limits, events);
    var a, book := EntryOf(w, actor), BookOf(w, actor);
    EntryIsOk(limits, w, actor);
    FitsIsAffordable(limits, a.charges, book.log, w.clock, at, cost);
    DistinctSize(a.waiting, Waiters(book.calls));
    var s := if actor in w.actors then w.actors[actor] else w.next;
    EnteredIsAdmitted(limits, a, book, id, Call(cost, s, Waiting), at);
    BeginsAs(w, limits, actor, id, cost, at, s);
  }

  lemma BeginsAs(w: World, limits: Limits, actor: string, id: CallId, cost: nat, at: int, s: StateId)
    requires ActorOk(w, limits, actor) && id !in BookOf(w, actor).calls && at >= w.clock
    requires s == if actor in w.actors then w.actors[actor] else w.next
    ensures BookOf(Step(w, limits, Begin(actor, id, cost, at)), actor)
            == After(BookOf(w, actor), id, Call(cost, s, Waiting), Entered(limits, EntryOf(w, actor), id, at, cost), at)
  {
  }

  /** A request that was handed a slot starts if and only if the budget allows its cost now; otherwise it is
      turned away, and the slot goes on to the request that has waited longest, if one waits. */
  lemma HandedStartsIff(limits: Limits, events: seq<Event>, actor: string, id: CallId, at: int)
    requires var w := Run(EMPTY, limits, events); InPhase(w, actor, id, Handed) && at >= w.clock
    ensures var w := Run(EMPTY, limits, events);
            var before := BookOf(w, actor);
            var after := BookOf(Step(w, limits, Resume(actor, id, at)), actor);
            var cost := before.calls[id].cost;
            && id in after.calls
            && (if Affordable(limits, before.log, at, cost) then
                  && after.calls[id].phase.Running? && after.log == before.log + [Charge(at, cost)]
                  && after.calls == before.calls[id := after.calls[id]] && after.granted == before.granted
                else
                  && after.calls[id].phase.Over? && after.log == before.log
                  && (Waiters(before.calls) == {} ==> after.granted == before.granted)
                  && (Waiters(before.calls) != {} ==>
                        |before.granted| < |before.queued|
                        && after.granted == before.granted + [before.queued[|before.granted|]]))
  {
    ReachedActor(limits, events, actor);
    var w := Run(EMPTY, limits, events);
    var a, book := EntryOf(w, actor), BookOf(w, actor);
    LiveIsKnown(w, limits, actor, id);
    EntryIsOk(limits, w, actor);
    FitsIsAffordable(limits, a.charges, book.log, w.clock, at, book.calls[id].cost);
    DistinctSize(a.waiting, Waiters(book.calls));
    if a.waiting != [] { assert a.waiting[0] in a.waiting; }
    assert BookOf(Step(w, limits, Resume(actor, id, at)), actor)
        == After(book, id, book.calls[id], Charged(limits, a, at, book.calls[id].cost), at);
  }
}

/** The upstream call limiter over whole runs: requests of any administrators that begin, wait, are
    handed a slot, go on and finish in any order, on a clock that does not go back. */
module LimiterRuns {
  import opened Wrappers
  import opened UpstreamLimits

  /** Which entry a request holds on to: the object, not its place in the table. */
  type StateId = nat

  /** `Handed`: a slot was handed over, but the request has not gone on yet. */
  datatype Phase = Waiting | Handed | Running | Over

  datatype Call = Call(cost: nat, state: StateId, phase: Phase)

  /** Everything that ever happened to one administrator's requests. */
  datatype Book = Book(calls: map<CallId, Call>, log: seq<Charge>, queued: seq<CallId>, granted: seq<CallId>)

  const BLANK := Book(map[], [], [], [])

  datatype World = World(
    actors: map<string, StateId>,
    states: map<StateId, Actor>,
    books: map<string, Book>,
    clock: int,
    next: StateId)

  datatype Event =
    | Begin(actor: string, id: CallId, cost: nat, at: int)
    | Resume(actor: string, id: CallId, at: int)
    | Finish(actor: string, id: CallId)

  function BookOf(w: World, actor: string): Book {
    if actor in w.books then w.books[actor] else BLANK
  }

  function PhaseOf(answer: Answer): Phase {
    match answer
    case Started => Running
    case Queued => Waiting
    case Busy(_) => Over
    case OverBudget(_) => Over
  }

  function HandOver(book: Book, next: Option<CallId>): Book {
    if next.Some? && next.value in book.calls then
      book.(calls := book.calls[next.value := book.calls[next.value].(phase := Handed)], granted := book.granted + [next.value])
    else book
  }

  function After(book: Book, id: CallId, call: Call, o: Outcome, at: int): Book {
    var b := book.(calls := book.calls[id := call.(phase := PhaseOf(o.answer))]);
    match o.answer
    case Started => b.(log := b.log + [Charge(at, call.cost)])
    case Queued => b.(queued := b.queued + [id])
    case Busy(_) => b
    case OverBudget(_) => HandOver(b, o.next)
  }

  function Forget(actors: map<string, StateId>, actor: string, a: Actor): map<string, StateId> {
    if Idle(a) then actors - {actor} else actors
  }

  function Begun(w: World, limits: Limits, actor: string, id: CallId, cost: nat, at: int): World {
    var known := actor in w.actors && w.actors[actor] in w.states;
    var s := if known then w.actors[actor] else w.next;
    var o := Entered(limits, if known then w.states[s] else NOBODY, id, at, cost);
    var actors := w.actors[actor := s];
    World(if o.answer.OverBudget? then Forget(actors, actor, o.actor) else actors,
          w.states[s := o.actor],
          w.books[actor := After(BookOf(w, actor), id, Call(cost, s, Waiting), o, at)],
          at, if known then w.next else w.next + 1)
  }

  function EntryOf(w: World, actor: string): Actor {
    if actor in w.actors && w.actors[actor] in w.states then w.states[w.actors[actor]] else NOBODY
  }

  predicate InPhase(w: World, actor: string, id: CallId, phase: Phase) {
    id in BookOf(w, actor).calls && BookOf(w, actor).calls[id].phase == phase && BookOf(w, actor).calls[id].state in w.states
  }

  function Resumed(w: World, limits: Limits, actor: string, id: CallId, at: int): World
    requires InPhase(w, actor, id, Handed)
  {
    var call := BookOf(w, actor).calls[id];
    var o := Charged(limits, w.states[call.state], at, call.cost);
    w.(actors := if o.answer.OverBudget? then Forget(w.actors, actor, o.actor) else w.actors,
    states := w.states[call.state := o.actor],
    books := w.books[actor := After(BookOf(w, actor), id, call, o, at)],
    clock := at)
  }

  function Finished(w: World, actor: string, id: CallId): World
    requires InPhase(w, actor, id, Running)
  {
    var book := BookOf(w, actor);
    var call := book.calls[id];
    var (a, next) := Left(w.states[call.state]);
    w.(actors := Forget(w.actors, actor, a),
    states := w.states[call.state := a],
    books := w.books[actor := HandOver(book.(calls := book.calls[id := call.(phase := Over)]), next)])
  }

  function Step(w: World, limits: Limits, e: Event): World {
    match e
    case Begin(actor, id, cost, at) =>
      if at >= w.clock && id !in BookOf(w, actor).calls then Begun(w, limits, actor, id, cost, at) else w
    case Resume(actor, id, at) =>
      if at >= w.clock && InPhase(w, actor, id, Handed) then Resumed(w, limits, actor, id, at) else w
    case Finish(actor, id) =>
      if InPhase(w, actor, id, Running) then Finished(w, actor, id) else w
  }

  function Run(w: World, limits: Limits, events: seq<Event>): World
    decreases |events|
  {
    if events == [] then w else Run(Step(w, limits, events[0]), limits, events[1..])
  }

  const EMPTY := World(map[], map[], map[], 0, 0)

  // ---------------------------------------------------------------------------------------------
  // The invariant
  // ---------------------------------------------------------------------------------------------

  function Holders(calls: map<CallId, Call>): set<CallId> {
    set id | id in calls && (calls[id].phase.Handed? || calls[id].phase.Running?)
  }

  function Waiters(calls: map<CallId, Call>): set<CallId> {
    set id | id in calls && calls[id].phase.Waiting?
  }

  ghost predicate Distinct(ids: seq<CallId>) {
    forall i, j :: 0 <= i < j < |ids| ==> ids[i] != ids[j]
  }

  ghost predicate SlotsOk(limits: Limits, a: Actor, book: Book) {
    && a.running == |Holders(book.calls)| <= limits.maxConcurrent
    && (a.waiting != [] ==> a.running == limits.maxConcurrent)
    && |a.waiting| <= limits.maxQueued
    && book.queued == book.granted + a.waiting
    && Distinct(a.waiting)
    && (forall id :: id in a.waiting <==> id in Waiters(book.calls))
  }

  /** Costs of the charges in `[from, to)`. */
  function Within(log: seq<Charge>, from: int, to: int): nat {
    if log == [] then 0 else (if from <= log[0].at < to then log[0].cost else 0) + Within(log[1..], from, to)
  }

  predicate WindowOk(limits: Limits, log: seq<Charge>, from: int) {
    Within(log, from, from + limits.windowMs) <= limits.budget
  }

  /** What the entry keeps is all that still counts, and no window was ever overspent. */
  ghost predicate ChargesOk(limits: Limits, charges: seq<Charge>, log: seq<Charge>, clock: int) {
    && Rising(charges) && (forall c :: c in charges ==> c.at <= clock)
    && Pruned(charges, clock - limits.windowMs) == Pruned(log, clock - limits.windowMs)
    && (forall x {:trigger WindowOk(limits, log, x)} :: WindowOk(limits, log, x))
  }

  ghost predicate CallsHold(calls: map<CallId, Call>, s: StateId) {
    forall id :: id in calls && !calls[id].phase.Over? ==> calls[id].state == s
  }

  ghost predicate ActorOk(w: World, limits: Limits, actor: string) {
    var book := BookOf(w, actor);
    if actor in w.actors then
      && w.actors[actor] in w.states
      && SlotsOk(limits, w.states[w.actors[actor]], book)
      && ChargesOk(limits, w.states[w.actors[actor]].charges, book.log, w.clock)
      && CallsHold(book.calls, w.actors[actor])
    else
      && SlotsOk(limits, NOBODY, book)
      && ChargesOk(limits, [], book.log, w.clock)
  }

  /** Every administrator's entry is its own, and entries are never reused. */
  ghost predicate TableOk(w: World) {
    && (forall a, b :: a in w.actors && b in w.actors && a != b ==> w.actors[a] != w.actors[b])
    && (forall a :: a in w.actors ==> w.actors[a] < w.next)
  }

  ghost predicate Inv(w: World, limits: Limits) {
    && (forall actor {:trigger ActorOk(w, limits, actor)} :: ActorOk(w, limits, actor))
    && TableOk(w)
  }

  // ---------------------------------------------------------------------------------------------
  // The budget
  // ---------------------------------------------------------------------------------------------

  lemma {:induction false} WithinAppend(log: seq<Charge>, c: Charge, from: int, to: int)
    ensures Within(log + [c], from, to) == Within(log, from, to) + (if from <= c.at < to then c.cost else 0)
  {
    if log != [] {
      assert (log + [c])[1..] == log[1..] + [c];
      WithinAppend(log[1..], c, from, to);
    } else {
      assert log + [c] == [c];
    }
  }

  lemma {:induction false} WithinKept(log: seq<Charge>, horizon: int, from: int, to: int)
    requires from > horizon
    ensures Within(log, from, to) <= Sum(Pruned(log, horizon))
  {
    if log != [] {
      WithinKept(log[1..], horizon, from, to);
      if log[0].at > horizon { WithinIsPart(log, from, to); }
    }
  }

  lemma {:induction false} WithinIsPart(log: seq<Charge>, from: int, to: int)
    ensures Within(log, from, to) <= Sum(log)
  {
    if log != [] { WithinIsPart(log[1..], from, to); }
  }

  lemma {:induction false} PrunedAppend(charges: seq<Charge>, c: Charge, horizon: int)
    ensures Pruned(charges + [c], horizon)
            == if Pruned(charges, horizon) == [] then Pruned([c], horizon) else Pruned(charges, horizon) + [c]
  {
    if charges == [] {
      assert charges + [c] == [c];
    } else {
      assert (charges + [c])[1..] == charges[1..] + [c];
      PrunedAppend(charges[1..], c, horizon);
    }
  }

  lemma LaterChargesOk(limits: Limits, charges: seq<Charge>, log: seq<Charge>, clock: int, at: int)
    requires ChargesOk(limits, charges, log, clock) && at >= clock
    ensures ChargesOk(limits, charges, log, at)
    ensures ChargesOk(limits, Pruned(charges, at - limits.windowMs), log, at)
  {
    PrunedLater(charges, log, clock - limits.windowMs, at - limits.windowMs);
    PrunedIsEnough(charges, at - limits.windowMs, at);
  }

  lemma PrunedIsEnough(charges: seq<Charge>, horizon: int, at: int)
    requires Rising(charges) && forall c :: c in charges ==> c.at <= at
    ensures var kept := Pruned(charges, horizon);
            Rising(kept) && (forall c :: c in kept ==> c.at <= at) && Pruned(kept, horizon) == kept
  {
    PrunedFacts(charges, horizon);
    PruneTwice(charges, horizon, horizon);
  }

  lemma PrunedLater(charges: seq<Charge>, log: seq<Charge>, horizon: int, later: int)
    requires horizon <= later && Pruned(charges, horizon) == Pruned(log, horizon)
    ensures Pruned(charges, later) == Pruned(log, later)
  {
    PruneTwice(charges, horizon, later);
    PruneTwice(log, horizon, later);
  }

  lemma ChargingKeepsWindow(limits: Limits, log: seq<Charge>, horizon: int, c: Charge, x: int)
    requires forall y {:trigger WindowOk(limits, log, y)} :: WindowOk(limits, log, y)
    requires c.at == horizon + limits.windowMs && Sum(Pruned(log, horizon)) + c.cost <= limits.budget
    ensures WindowOk(limits, log + [c], x)
  {
    WithinAppend(log, c, x, x + limits.windowMs);
    if x <= c.at < x + limits.windowMs {
      WithinKept(log, horizon, x, x + limits.windowMs);
    }
    assert WindowOk(limits, log, x);
  }

  lemma AppendRises(kept: seq<Charge>, c: Charge)
    requires Rising(kept) && forall d :: d in kept ==> d.at <= c.at
    ensures Rising(kept + [c]) && forall d :: d in kept + [c] ==> d.at <= c.at
  {
    forall i, j | 0 <= i < j < |kept + [c]| ensures (kept + [c])[i].at <= (kept + [c])[j].at {
      assert (kept + [c])[i] in kept;
    }
  }

  lemma AppendKeepsPruned(charges: seq<Charge>, log: seq<Charge>, c: Charge, horizon: int)
    requires Pruned(charges, horizon) == Pruned(log, horizon)
    ensures Pruned(charges + [c], horizon) == Pruned(log + [c], horizon)
  {
    PrunedAppend(charges, c, horizon);
    PrunedAppend(log, c, horizon);
  }

  lemma ChargingKeepsBudget(limits: Limits, charges: seq<Charge>, log: seq<Charge>, clock: int, at: int, cost: nat)
    requires ChargesOk(limits, charges, log, clock) && at >= clock && Fits(limits, charges, at, cost)
    ensures ChargesOk(limits, Pruned(charges, at - limits.windowMs) + [Charge(at, cost)], log + [Charge(at, cost)], at)
  {
    var h, c := at - limits.windowMs, Charge(at, cost);
    LaterChargesOk(limits, charges, log, clock, at);
    AppendRises(Pruned(charges, h), c);
    AppendKeepsPruned(Pruned(charges, h), log, c, h);
    forall x ensures WindowOk(limits, log + [c], x) {
      ChargingKeepsWindow(limits, log, h, c, x);
    }
  }

  // ---------------------------------------------------------------------------------------------
  // The slots
  // ---------------------------------------------------------------------------------------------

  /** A request that gives its slot up: it goes to the first waiter, or back. */
  lemma LeavingKeepsSlots(limits: Limits, a: Actor, book: Book, id: CallId, call: Call)
    requires SlotsOk(limits, a, book) && id in Holders(book.calls) && call.phase.Over?
    ensures var (b, next) := Left(a);
            SlotsOk(limits, b, HandOver(book.(calls := book.calls[id := call]), next))
  {
    var calls := book.calls[id := call];
    assert Holders(calls) == Holders(book.calls) - {id};
    assert Waiters(calls) == Waiters(book.calls);
    if a.waiting != [] {
      var w := a.waiting[0];
      assert w in a.waiting;
      var handed := calls[w := calls[w].(phase := Handed)];
      assert Holders(handed) == Holders(calls) + {w};
      assert Waiters(handed) == Waiters(calls) - {w};
      assert a.waiting == [w] + a.waiting[1..];
      assert w !in a.waiting[1..];
      assert book.granted + a.waiting == book.granted + [w] + a.waiting[1..];
    }
  }

  lemma TakingASlot(limits: Limits, a: Actor, book: Book, id: CallId, call: Call)
    requires SlotsOk(limits, a, book) && id !in book.calls && a.running < limits.maxConcurrent
    requires call.phase.Running? || call.phase.Handed?
    ensures SlotsOk(limits, a.(running := a.running + 1), book.(calls := book.calls[id := call]))
  {
    var calls := book.calls[id := call];
    assert Holders(calls) == Holders(book.calls) + {id};
    assert Waiters(calls) == Waiters(book.calls);
  }

  lemma Queueing(limits: Limits, a: Actor, book: Book, id: CallId, call: Call)
    requires SlotsOk(limits, a, book) && id !in book.calls && a.running >= limits.maxConcurrent
    requires |a.waiting| < limits.maxQueued && call.phase.Waiting?
    ensures SlotsOk(limits, a.(waiting := a.waiting + [id]), book.(calls := book.calls[id := call], queued := book.queued + [id]))
  {
    var calls := book.calls[id := call];
    assert Holders(calls) == Holders(book.calls);
    assert Waiters(calls) == Waiters(book.calls) + {id};
    assert book.granted + a.waiting + [id] == book.granted + (a.waiting + [id]);
    assert id !in a.waiting;
  }

  lemma SamePhaseKeepsSlots(limits: Limits, a: Actor, b: Actor, book: Book, other: Book)
    requires SlotsOk(limits, a, book)
    requires a.running == b.running && a.waiting == b.waiting
    requires Holders(book.calls) == Holders(other.calls) && Waiters(book.calls) == Waiters(other.calls)
    requires book.queued == other.queued && book.granted == other.granted
    ensures SlotsOk(limits, b, other)
  {
  }

  /** A request holding a slot is charged, or refused. */
  lemma ChargedKeeps(limits: Limits, a: Actor, book: Book, id: CallId, call: Call, clock: int, at: int)
    requires SlotsOk(limits, a, book) && ChargesOk(limits, a.charges, book.log, clock) && at >= clock
    requires id in Holders(book.calls)
    ensures var o := Charged(limits, a, at, call.cost);
            var after := After(book, id, call, o, at);
            SlotsOk(limits, o.actor, after) && ChargesOk(limits, o.actor.charges, after.log, at)
  {
    var o := Charged(limits, a, at, call.cost);
    LaterChargesOk(limits, a.charges, book.log, clock, at);
    var held := call.(phase := PhaseOf(o.answer));
    var calls := book.calls[id := held];
    if o.answer.Started? {
      ChargingKeepsBudget(limits, a.charges, book.log, clock, at, call.cost);
      assert Holders(calls) == Holders(book.calls);
      assert Waiters(calls) == Waiters(book.calls);
    } else {
      var pruned := a.(charges := Pruned(a.charges, at - limits.windowMs));
      SamePhaseKeepsSlots(limits, a, pruned, book, book);
      LeavingKeepsSlots(limits, pruned, book, id, held);
    }
  }

  lemma EnteredKeeps(limits: Limits, a: Actor, book: Book, id: CallId, call: Call, clock: int, at: int)
    requires SlotsOk(limits, a, book) && ChargesOk(limits, a.charges, book.log, clock) && at >= clock
    requires id !in book.calls
    ensures var o := Entered(limits, a, id, at, call.cost);
            var after := After(book, id, call, o, at);
            SlotsOk(limits, o.actor, after) && ChargesOk(limits, o.actor.charges, after.log, at)
  {
    var o := Entered(limits, a, id, at, call.cost);
    LaterChargesOk(limits, a.charges, book.log, clock, at);
    if a.running < limits.maxConcurrent {
      var held := call.(phase := Handed);
      var with := book.(calls := book.calls[id := held]);
      TakingASlot(limits, a, book, id, held);
      ChargedKeeps(limits, a.(running := a.running + 1), with, id, call, clock, at);
      assert with.calls[id := call.(phase := PhaseOf(o.answer))] == book.calls[id := call.(phase := PhaseOf(o.answer))];
    } else if o.answer.Queued? {
      Queueing(limits, a, book, id, call.(phase := Waiting));
    } else {
      var calls := book.calls[id := call.(phase := Over)];
      assert Holders(calls) == Holders(book.calls);
      assert Waiters(calls) == Waiters(book.calls);
    }
  }

  // ---------------------------------------------------------------------------------------------
  // Steps
  // ---------------------------------------------------------------------------------------------

  /** Nothing is shared across administrators: a step of one leaves every other where it was. */
  ghost predicate Aside(w: World, u: World, other: string) {
    && BookOf(u, other) == BookOf(w, other)
    && (other in u.actors <==> other in w.actors)
    && (other in w.actors ==>
          && u.actors[other] == w.actors[other]
          && (w.actors[other] in w.states ==> w.actors[other] in u.states && u.states[w.actors[other]] == w.states[w.actors[other]]))
  }

  lemma AsideKeeps(w: World, u: World, limits: Limits, other: string)
    requires ActorOk(w, limits, other) && Aside(w, u, other) && u.clock >= w.clock
    ensures ActorOk(u, limits, other)
  {
    if other in w.actors {
      LaterChargesOk(limits, w.states[w.actors[other]].charges, BookOf(w, other).log, w.clock, u.clock);
    } else {
      LaterChargesOk(limits, [], BookOf(w, other).log, w.clock, u.clock);
    }
  }

  /** What an administrator holds on to is a state no other one has. */
  ghost predicate OwnsState(w: World, actor: string, s: StateId) {
    forall other :: other in w.actors && other != actor ==> w.actors[other] != s
  }

  lemma BeginIsAside(w: World, limits: Limits, actor: string, id: CallId, cost: nat, at: int, other: string)
    requires other != actor && OwnsState(w, actor, w.next) && (actor in w.actors ==> OwnsState(w, actor, w.actors[actor]))
    ensures Aside(w, Begun(w, limits, actor, id, cost, at), other)
  {
  }

  lemma ResumeIsAside(w: World, limits: Limits, actor: string, id: CallId, at: int, other: string)
    requires InPhase(w, actor, id, Handed) && other != actor && OwnsState(w, actor, BookOf(w, actor).calls[id].state)
    ensures Aside(w, Resumed(w, limits, actor, id, at), other)
  {
  }

  lemma FinishIsAside(w: World, actor: string, id: CallId, other: string)
    requires InPhase(w, actor, id, Running) && other != actor && OwnsState(w, actor, BookOf(w, actor).calls[id].state)
    ensures Aside(w, Finished(w, actor, id), other)
  {
  }

  lemma OthersAreAside(w: World, limits: Limits, e: Event, other: string)
    requires Inv(w, limits) && other != e.actor
    ensures Aside(w, Step(w, limits, e), other)
  {
    assert ActorOk(w, limits, e.actor);
    match e
    case Begin(actor, id, cost, at) => BeginIsAside(w, limits, actor, id, cost, at, other);
    case Resume(actor, id, at) =>
      if InPhase(w, actor, id, Handed) {
        LiveIsKnown(w, limits, actor, id);
        ResumeIsAside(w, limits, actor, id, at, other);
      }
    case Finish(actor, id) =>
      if InPhase(w, actor, id, Running) {
        LiveIsKnown(w, limits, actor, id);
        FinishIsAside(w, actor, id, other);
      }
  }

  lemma NobodyIsLive(limits: Limits, book: Book)
    requires SlotsOk(limits, NOBODY, book)
    ensures Holders(book.calls) == {} && Waiters(book.calls) == {}
    ensures forall id :: id in book.calls ==> book.calls[id].phase.Over?
  {
    forall id ensures id !in Waiters(book.calls) {
      assert id !in NOBODY.waiting;
    }
    forall id | id in book.calls ensures book.calls[id].phase.Over? {
      assert id !in Holders(book.calls) && id !in Waiters(book.calls);
    }
  }

  lemma AfterHolds(book: Book, id: CallId, call: Call, o: Outcome, at: int)
    requires CallsHold(book.calls, call.state)
    requires o.next.Some? ==> o.next.value in Waiters(book.calls)
    ensures CallsHold(After(book, id, call, o, at).calls, call.state)
  {
  }

  /** An entry that holds nothing may go; nobody holds it. */
  lemma ForgettingKeeps(limits: Limits, a: Actor, book: Book, clock: int)
    requires SlotsOk(limits, a, book) && ChargesOk(limits, a.charges, book.log, clock) && Idle(a)
    ensures SlotsOk(limits, NOBODY, book) && ChargesOk(limits, [], book.log, clock)
  {
  }

  lemma BeginKeeps(w: World, limits: Limits, actor: string, id: CallId, cost: nat, at: int)
    requires ActorOk(w, limits, actor) && at >= w.clock && id !in BookOf(w, actor).calls
    ensures ActorOk(Begun(w, limits, actor, id, cost, at), limits, actor)
  {
    var book := BookOf(w, actor);
    var s := if actor in w.actors then w.actors[actor] else w.next;
    var a := EntryOf(w, actor);
    if actor !in w.actors {
      NobodyIsLive(limits, book);
    }
    EnteredIsOk(limits, a, book, id, Call(cost, s, Waiting), w.clock, at);
    var u := Begun(w, limits, actor, id, cost, at);
    assert BookOf(u, actor) == After(book, id, Call(cost, s, Waiting), Entered(limits, a, id, at, cost), at);
  }

  lemma EnteredIsOk(limits: Limits, a: Actor, book: Book, id: CallId, call: Call, clock: int, at: int)
    requires SlotsOk(limits, a, book) && ChargesOk(limits, a.charges, book.log, clock) && at >= clock
    requires id !in book.calls && CallsHold(book.calls, call.state)
    ensures var o := Entered(limits, a, id, at, call.cost);
            var after := After(book, id, call, o, at);
            && SlotsOk(limits, o.actor, after) && ChargesOk(limits, o.actor.charges, after.log, at)
            && CallsHold(after.calls, call.state)
            && (Idle(o.actor) ==> SlotsOk(limits, NOBODY, after) && ChargesOk(limits, [], after.log, at))
  {
    var o := Entered(limits, a, id, at, call.cost);
    EnteredKeeps(limits, a, book, id, call, clock, at);
    NextWaits(limits, a, book, id, at, call.cost);
    AfterHolds(book, id, call, o, at);
    if Idle(o.actor) {
      ForgettingKeeps(limits, o.actor, After(book, id, call, o, at), at);
    }
  }

  lemma NextWaits(limits: Limits, a: Actor, book: Book, id: CallId, at: int, cost: nat)
    requires SlotsOk(limits, a, book)
    ensures var n := Charged(limits, a, at, cost).next; n.Some? ==> n.value in Waiters(book.calls)
    ensures var n := Entered(limits, a, id, at, cost).next; n.Some? ==> n.value in Waiters(book.calls)
    ensures Left(a).1.Some? ==> Left(a).1.value in Waiters(book.calls)
  {
    if a.waiting != [] { assert a.waiting[0] in a.waiting; }
  }

  lemma LiveIsKnown(w: World, limits: Limits, actor: string, id: CallId)
    requires ActorOk(w, limits, actor) && id in BookOf(w, actor).calls && !BookOf(w, actor).calls[id].phase.Over?
    ensures actor in w.actors && w.actors[actor] == BookOf(w, actor).calls[id].state
  {
    if actor !in w.actors {
      NobodyIsLive(limits, BookOf(w, actor));
    }
  }

  lemma ResumeKeeps(w: World, limits: Limits, actor: string, id: CallId, at: int)
    requires ActorOk(w, limits, actor) && at >= w.clock && InPhase(w, actor, id, Handed)
    ensures ActorOk(Resumed(w, limits, actor, id, at), limits, actor)
  {
    LiveIsKnown(w, limits, actor, id);
    var book := BookOf(w, actor);
    var call := book.calls[id];
    var a := w.states[call.state];
    var o := Charged(limits, a, at, call.cost);
    ChargedKeeps(limits, a, book, id, call, w.clock, at);
    NextWaits(limits, a, book, id, at, call.cost);
    AfterHolds(book, id, call, o, at);
    var u := Resumed(w, limits, actor, id, at);
    assert BookOf(u, actor) == After(book, id, call, o, at);
    if o.answer.OverBudget? && Idle(o.actor) {
      ForgettingKeeps(limits, o.actor, BookOf(u, actor), at);
    }
  }

  lemma FinishKeeps(w: World, limits: Limits, actor: string, id: CallId)
    requires ActorOk(w, limits, actor) && InPhase(w, actor, id, Running)
    ensures ActorOk(Finished(w, actor, id), limits, actor)
  {
    LiveIsKnown(w, limits, actor, id);
    var book := BookOf(w, actor);
    var call := book.calls[id];
    var a := w.states[call.state];
    LeavingKeepsSlots(limits, a, book, id, call.(phase := Over));
    NextWaits(limits, a, book, id, w.clock, 0);
    var u := Finished(w, actor, id);
    if Idle(Left(a).0) {
      ForgettingKeeps(limits, Left(a).0, BookOf(u, actor), w.clock);
    }
  }

  lemma OwnKeeps(w: World, limits: Limits, e: Event)
    requires ActorOk(w, limits, e.actor)
    ensures ActorOk(Step(w, limits, e), limits, e.actor)
  {
    var actor := e.actor;
    match e
    case Begin(_, id, cost, at) => if at >= w.clock && id !in BookOf(w, actor).calls { BeginKeeps(w, limits, actor, id, cost, at); }
    case Resume(_, id, at) => if at >= w.clock && InPhase(w, actor, id, Handed) { ResumeKeeps(w, limits, actor, id, at); }
    case Finish(_, id) => if InPhase(w, actor, id, Running) { FinishKeeps(w, limits, actor, id); }
  }

  lemma StepKeepsTable(w: World, limits: Limits, e: Event)
    requires TableOk(w)
    ensures TableOk(Step(w, limits, e))
  {
    var u := Step(w, limits, e);
    assert u.next >= w.next;
    forall a | a in u.actors
      ensures (a in w.actors && u.actors[a] == w.actors[a]) || (a == e.actor && u.actors[a] == w.next < u.next)
    {
    }
  }

  lemma StepKeepsInv(w: World, limits: Limits, e: Event)
    requires Inv(w, limits)
    ensures Inv(Step(w, limits, e), limits)
  {
    var u := Step(w, limits, e);
    StepKeepsTable(w, limits, e);
    forall actor ensures ActorOk(u, limits, actor) {
      assert ActorOk(w, limits, actor);
      if actor != e.actor {
        OthersAreAside(w, limits, e, actor);
        AsideKeeps(w, u, limits, actor);
      } else {
        OwnKeeps(w, limits, e);
      }
    }
  }

  lemma {:induction false} RunKeepsInv(w: World, limits: Limits, events: seq<Event>)
    requires Inv(w, limits)
    ensures Inv(Run(w, limits, events), limits)
    decreases |events|
  {
    if events != [] {
      StepKeepsInv(w, limits, events[0]);
      RunKeepsInv(Step(w, limits, events[0]), limits, events[1..]);
    }
  }

  lemma Reached(limits: Limits, events: seq<Event>)
    ensures Inv(Run(EMPTY, limits, events), limits)
  {
    forall actor ensures ActorOk(EMPTY, limits, actor) {
      forall x ensures WindowOk(limits, [], x) { }
    }
    RunKeepsInv(EMPTY, limits, events);
  }

  // ---------------------------------------------------------------------------------------------
  // Results
  // ---------------------------------------------------------------------------------------------

  /** In every run, whatever an administrator was charged in any stretch of `windowMs` is within the
      budget, over everything ever charged and whether or not the entry was forgotten in between. */
  lemma BudgetHolds(limits: Limits, events: seq<Event>, actor: string, from: int)
    ensures Within(BookOf(Run(EMPTY, limits, events), actor).log, from, from + limits.windowMs) <= limits.budget
  {
    Reached(limits, events);
    assert ActorOk(Run(EMPTY, limits, events), limits, actor);
    assert WindowOk(limits, BookOf(Run(EMPTY, limits, events), actor).log, from);
  }

  /** The stretch is half-open: whatever the limits, one that takes in both its ends may see the whole
      budget twice. */
  lemma BothEndsMaySeeTwice(limits: Limits, actor: string)
    requires limits.maxConcurrent > 0
    ensures var events := [Begin(actor, 1, limits.budget, 0), Finish(actor, 1), Begin(actor, 2, limits.budget, limits.windowMs)];
            Within(BookOf(Run(EMPTY, limits, events), actor).log, 0, limits.windowMs + 1) == 2 * limits.budget
  {
    var first, finish := Begin(actor, 1, limits.budget, 0), Finish(actor, 1);
    var last := Begin(actor, 2, limits.budget, limits.windowMs);
    var w1 := Step(EMPTY, limits, first);
    var w2 := Step(w1, limits, finish);
    var w3 := Step(w2, limits, last);
    SpentOnce(limits, actor, w1, w2);
    SpentAgain(limits, actor, w2, w3);
    ThreeSteps(EMPTY, limits, first, finish, last);
    TwoWithin(Charge(0, limits.budget), Charge(limits.windowMs, limits.budget), 0, limits.windowMs + 1);
  }

  lemma TwoWithin(c: Charge, d: Charge, from: int, to: int)
    requires from <= c.at < to && from <= d.at < to
    ensures Within([c, d], from, to) == c.cost + d.cost
  {
    assert [c, d][1..] == [d] && [d][1..] == [];
    assert Within([d], from, to) == d.cost + Within([], from, to);
  }

  lemma ThreeSteps(w: World, limits: Limits, a: Event, b: Event, c: Event)
    ensures Run(w, limits, [a, b, c]) == Step(Step(Step(w, limits, a), limits, b), limits, c)
  {
    assert [a, b, c][1..] == [b, c] && [b, c][1..] == [c] && [c][1..] == [];
    var w1 := Step(w, limits, a);
    var w2 := Step(w1, limits, b);
    assert Run(w1, limits, [b, c]) == Run(w2, limits, [c]) == Run(Step(w2, limits, c), limits, []);
  }

  predicate SpentAt(w: World, limits: Limits, actor: string, at: int) {
    && EntryOf(w, actor) == Actor(0, [], [Charge(at, limits.budget)])
    && actor in w.actors && w.actors[actor] in w.states
    && w.clock == at && BookOf(w, actor).log == [Charge(at, limits.budget)] && 2 !in BookOf(w, actor).calls
  }

  lemma SpentOnce(limits: Limits, actor: string, w1: World, w2: World)
    requires limits.maxConcurrent > 0
    requires w1 == Step(EMPTY, limits, Begin(actor, 1, limits.budget, 0)) && w2 == Step(w1, limits, Finish(actor, 1))
    ensures SpentAt(w2, limits, actor, 0)
  {
    var o := Entered(limits, NOBODY, 1, 0, limits.budget);
    assert o == Outcome(Actor(1, [], [Charge(0, limits.budget)]), Started, None);
    assert w1 == Begun(EMPTY, limits, actor, 1, limits.budget, 0);
    assert InPhase(w1, actor, 1, Running);
  }

  lemma SpentAgain(limits: Limits, actor: string, w: World, v: World)
    requires limits.maxConcurrent > 0 && SpentAt(w, limits, actor, 0)
    requires v == Step(w, limits, Begin(actor, 2, limits.budget, limits.windowMs))
    ensures BookOf(v, actor).log == [Charge(0, limits.budget), Charge(limits.windowMs, limits.budget)]
  {
    var spent := [Charge(0, limits.budget)];
    assert spent[1..] == [];
    assert Pruned(spent, 0) == Pruned([], 0) == [];
    assert Entered(limits, EntryOf(w, actor), 2, limits.windowMs, limits.budget).answer == Started;
    assert spent + [Charge(limits.windowMs, limits.budget)] == [Charge(0, limits.budget), Charge(limits.windowMs, limits.budget)];
  }

  predicate StretchOk(limits: Limits, events: seq<Event>, actor: string, from: int, length: nat) {
    Within(BookOf(Run(EMPTY, limits, events), actor).log, from, from + length) <= limits.budget
  }

  /** Nothing any run charges any administrator in any half-open stretch of `length` is over the budget. */
  ghost predicate NeverOver(limits: Limits, length: nat) {
    forall events, actor, from {:trigger StretchOk(limits, events, actor, from, length)} ::
      StretchOk(limits, events, actor, from, length)
  }

  lemma {:induction false} WithinGrows(log: seq<Charge>, from: int, to: int, later: int)
    requires to <= later
    ensures Within(log, from, to) <= Within(log, from, later)
  {
    if log != [] { WithinGrows(log[1..], from, to, later); }
  }

  /** The exact window: the budget is never overspent in any stretch of a length if and only if that length
      is at most `windowMs`. */
  lemma BudgetHoldsIff(limits: Limits, length: nat)
    requires limits.maxConcurrent > 0 && limits.budget > 0
    ensures NeverOver(limits, length) <==> length <= limits.windowMs
  {
    if length <= limits.windowMs {
      forall events, actor, from ensures StretchOk(limits, events, actor, from, length) {
        var log := BookOf(Run(EMPTY, limits, events), actor).log;
        BudgetHolds(limits, events, actor, from);
        WithinGrows(log, from, from + length, from + limits.windowMs);
      }
    } else {
      var events := [Begin("", 1, limits.budget, 0), Finish("", 1), Begin("", 2, limits.budget, limits.windowMs)];
      var log := BookOf(Run(EMPTY, limits, events), "").log;
      BothEndsMaySeeTwice(limits, "");
      WithinGrows(log, 0, limits.windowMs + 1, 0 + length);
      assert !StretchOk(limits, events, "", 0, length);
    }
  }

  /** In every run: `running` is the number of requests that hold a slot (one handed a slot and not yet
      gone on included), at most `maxConcurrent`; requests wait only while all slots are taken; and they
      are handed slots in the order they queued. */
  lemma SlotsAreRespected(limits: Limits, events: seq<Event>, actor: string)
    ensures var w := Run(EMPTY, limits, events);
            var book := BookOf(w, actor);
            var a := EntryOf(w, actor);
            && a.running == |Holders(book.calls)| <= limits.maxConcurrent
            && (a.waiting != [] ==> a.running == limits.maxConcurrent)
            && |a.waiting| <= limits.maxQueued
            && book.queued == book.granted + a.waiting
            && (forall id :: id in a.waiting <==> id in Waiters(book.calls))
  {
    Reached(limits, events);
    assert ActorOk(Run(EMPTY, limits, events), limits, actor);
  }

  /** No barging: a request that gets a slot at once, or is refused for the budget, found nobody waiting. */
  lemma NobodyIsPassed(limits: Limits, events: seq<Event>, actor: string, id: CallId, cost: nat, at: int)
    requires var w := Run(EMPTY, limits, events);
             id !in BookOf(w, actor).calls && at >= w.clock && Waiters(BookOf(w, actor).calls) != {}
    ensures var w := Run(EMPTY, limits, events);
            var u := Step(w, limits, Begin(actor, id, cost, at));
            var call := BookOf(u, actor).calls[id];
            && (call.phase.Waiting? || call.phase.Over?)
            && Holders(BookOf(u, actor).calls) == Holders(BookOf(w, actor).calls)
            && BookOf(u, actor).log == BookOf(w, actor).log
  {
    Reached(limits, events);
    var w := Run(EMPTY, limits, events);
    assert ActorOk(w, limits, actor);
    if actor !in w.actors {
      NobodyIsLive(limits, BookOf(w, actor));
    }
    var i :| i in Waiters(BookOf(w, actor).calls);
    assert i in w.states[w.actors[actor]].waiting;
  }

  /** The entry a waiting or running request holds is the one in the table: no request ever gives its
      slot back to an entry that was replaced, and no entry with a live request is dropped. */
  lemma LiveEntriesStay(limits: Limits, events: seq<Event>, actor: string, id: CallId)
    requires var calls := BookOf(Run(EMPTY, limits, events), actor).calls; id in calls && !calls[id].phase.Over?
    ensures var w := Run(EMPTY, limits, events);
            actor in w.actors && w.actors[actor] == BookOf(w, actor).calls[id].state
  {
    Reached(limits, events);
    assert ActorOk(Run(EMPTY, limits, events), limits, actor);
    LiveIsKnown(Run(EMPTY, limits, events), limits, actor, id);
  }

  /** An administrator without an entry has no charge left that would still count. */
  lemma ForgottenHasNothingLeft(limits: Limits, events: seq<Event>, actor: string)
    requires actor !in Run(EMPTY, limits, events).actors
    ensures NothingCounts(Run(EMPTY, limits, events), limits, actor)
  {
    ReachedActor(limits, events, actor);
    ForgottenIn(Run(EMPTY, limits, events), limits, actor);
  }

  lemma ReachedActor(limits: Limits, events: seq<Event>, actor: string)
    ensures ActorOk(Run(EMPTY, limits, events), limits, actor)
  {
    Reached(limits, events);
  }

  /** Nothing was charged in the window that ends now. */
  predicate NothingCounts(w: World, limits: Limits, actor: string) {
    Within(BookOf(w, actor).log, w.clock - limits.windowMs + 1, w.clock + 1) == 0
  }

  lemma ForgottenIn(w: World, limits: Limits, actor: string)
    requires ActorOk(w, limits, actor) && actor !in w.actors
    ensures NothingCounts(w, limits, actor)
  {
    NothingKeptNothingWithin(limits, BookOf(w, actor).log, w.clock);
  }

  lemma NothingKeptNothingWithin(limits: Limits, log: seq<Charge>, clock: int)
    requires Pruned(log, clock - limits.windowMs) == []
    ensures Within(log, clock - limits.windowMs + 1, clock + 1) == 0
  {
    WithinKept(log, clock - limits.windowMs, clock - limits.windowMs + 1, clock + 1);
  }

  /** A slot given up while others wait goes to the one that has waited longest. */
  lemma LongestWaitingIsNext(limits: Limits, events: seq<Event>, actor: string, id: CallId)
    requires var w := Run(EMPTY, limits, events);
             InPhase(w, actor, id, Running) && Waiters(BookOf(w, actor).calls) != {}
    ensures var w := Run(EMPTY, limits, events);
            var u := Step(w, limits, Finish(actor, id));
            var book := BookOf(w, actor);
            && |book.granted| < |book.queued|
            && InPhase(u, actor, book.queued[|book.granted|], Handed)
  {
    Reached(limits, events);
    var w := Run(EMPTY, limits, events);
    assert ActorOk(w, limits, actor);
    LiveIsKnown(w, limits, actor, id);
    var i :| i in Waiters(BookOf(w, actor).calls);
    assert i in w.states[w.actors[actor]].waiting;
    assert w.states[w.actors[actor]].waiting[0] in w.states[w.actors[actor]].waiting;
  }

  /** In every run, a request refused for the budget is told the least whole number of seconds after
      which it is accepted if nothing else is charged. */
  lemma RefusalSaysWhenToReturn(limits: Limits, events: seq<Event>, actor: string, at: int, cost: nat)
    requires var w := Run(EMPTY, limits, events);
             at >= w.clock && cost <= limits.budget && Charged(limits, EntryOf(w, actor), at, cost).answer.OverBudget?
    ensures var o := Charged(limits, EntryOf(Run(EMPTY, limits, events), actor), at, cost);
            var wait := o.answer.retryAfterSeconds;
            && wait >= 1
            && (forall t :: t >= at + 1000 * wait ==> Charged(limits, o.actor, t, cost).answer.Started?)
            && (forall t :: at <= t <= at + 1000 * (wait - 1) ==> Charged(limits, o.actor, t, cost).answer.OverBudget?)
  {
    Reached(limits, events);
    var w := Run(EMPTY, limits, events);
    assert ActorOk(w, limits, actor);
    WaitIsExact(limits, EntryOf(w, actor), at, cost);
  }
}

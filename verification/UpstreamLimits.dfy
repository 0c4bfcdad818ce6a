/** The per-administrator bound on admin calls that reach an upstream: slots handed over in order, and a
    budget of calls per sliding window. `Entered`, `Charged` and `Left` say what one step does to one
    administrator's state; `ActorState` and `UpstreamCallLimiter` are proved to do exactly that. */
module UpstreamLimits {
  import opened Wrappers

  type CallId = nat

  datatype Limits = Limits(maxConcurrent: nat, maxQueued: nat, budget: nat, windowMs: nat)

  datatype Charge = Charge(at: int, cost: nat)

  /** One administrator's entry. `charges`: oldest first. */
  datatype Actor = Actor(running: int, waiting: seq<CallId>, charges: seq<Charge>)

  const NOBODY := Actor(0, [], [])

  datatype Answer = Started | Queued | Busy(retryAfterSeconds: int) | OverBudget(retryAfterSeconds: int)

  /** `next`: the waiter that was handed the slot. */
  datatype Outcome = Outcome(actor: Actor, answer: Answer, next: Option<CallId>)

  function Sum(charges: seq<Charge>): nat {
    if charges == [] then 0 else charges[0].cost + Sum(charges[1..])
  }

  /** Without the charges at or before `horizon`, as far as they come first. */
  function Pruned(charges: seq<Charge>, horizon: int): seq<Charge> {
    if charges != [] && charges[0].at <= horizon then Pruned(charges[1..], horizon) else charges
  }

  /** When `freed` plus the oldest charges is enough for `cost`; `never` when it is not. */
  function RetryAt(charges: seq<Charge>, freed: int, cost: nat, windowMs: nat, never: int): int {
    if charges == [] then never
    else if freed + charges[0].cost >= cost then charges[0].at + windowMs
    else RetryAt(charges[1..], freed + charges[0].cost, cost, windowMs, never)
  }

  function CeilSeconds(ms: int): int {
    (ms + 999) / 1000
  }

  function Max(a: int, b: int): int {
    if a < b then b else a
  }

  function RefusedUntil(limits: Limits, kept: seq<Charge>, at: int, cost: nat): int {
    RetryAt(kept, limits.budget - Sum(kept), cost, limits.windowMs, at + limits.windowMs)
  }

  predicate Fits(limits: Limits, charges: seq<Charge>, at: int, cost: nat) {
    Sum(Pruned(charges, at - limits.windowMs)) + cost <= limits.budget
  }

  /** A slot is given up: to the first waiter, or back. */
  function Left(a: Actor): (Actor, Option<CallId>) {
    if a.waiting != [] then (a.(waiting := a.waiting[1..]), Some(a.waiting[0]))
    else (a.(running := a.running - 1), None)
  }

  /** What a call that holds a slot does: it is charged, or it is refused and gives the slot up. */
  function Charged(limits: Limits, a: Actor, at: int, cost: nat): Outcome {
    var kept := Pruned(a.charges, at - limits.windowMs);
    if Fits(limits, a.charges, at, cost) then
      Outcome(a.(charges := kept + [Charge(at, cost)]), Started, None)
    else
      var (b, next) := Left(a.(charges := kept));
      Outcome(b, OverBudget(Max(1, CeilSeconds(RefusedUntil(limits, kept, at, cost) - at))), next)
  }

  const BUSY_RETRY_SECONDS := 5

  function Entered(limits: Limits, a: Actor, id: CallId, at: int, cost: nat): Outcome {
    if a.running < limits.maxConcurrent then Charged(limits, a.(running := a.running + 1), at, cost)
    else if |a.waiting| >= limits.maxQueued then Outcome(a, Busy(BUSY_RETRY_SECONDS), None)
    else Outcome(a.(waiting := a.waiting + [id]), Queued, None)
  }

  predicate Idle(a: Actor) {
    a.running == 0 && a.waiting == [] && a.charges == []
  }

  // ---------------------------------------------------------------------------------------------

  lemma {:induction false} SumAppend(a: seq<Charge>, b: seq<Charge>)
    ensures Sum(a + b) == Sum(a) + Sum(b)
  {
    if a == [] {
      assert a + b == b;
    } else {
      assert (a + b)[1..] == a[1..] + b;
      SumAppend(a[1..], b);
    }
  }

  class ActorState {
    var running: int
    var waiting: seq<CallId>
    var charges: seq<Charge>

    ghost function State(): Actor
      reads this
    {
      Actor(running, waiting, charges)
    }

    constructor ()
      ensures State() == NOBODY
    {
      running, waiting, charges := 0, [], [];
    }

    method Prune(horizon: int)
      modifies this`charges
      ensures charges == Pruned(old(charges), horizon)
    {
      while |charges| > 0 && charges[0].at <= horizon
        invariant Pruned(charges, horizon) == Pruned(old(charges), horizon)
        decreases |charges|
      {
        charges := charges[1..];
      }
    }

    method Spent() returns (spent: nat)
      ensures spent == Sum(charges)
    {
      spent := 0;
      var i := 0;
      while i < |charges|
        invariant 0 <= i <= |charges|
        invariant spent == Sum(charges[..i])
      {
        SumAppend(charges[..i], [charges[i]]);
        assert charges[..i + 1] == charges[..i] + [charges[i]];
        spent := spent + charges[i].cost;
        i := i + 1;
      }
      assert charges[..i] == charges;
    }

    /** The earliest moment enough of the window has rolled off. */
    method FindRetryAt(limits: Limits, at: int, cost: nat, spent: nat) returns (retryAt: int)
      requires spent == Sum(charges)
      ensures retryAt == RefusedUntil(limits, charges, at, cost)
    {
      var freed := limits.budget - spent;
      retryAt := at + limits.windowMs;
      var i := 0;
      while i < |charges|
        invariant 0 <= i <= |charges|
        invariant RetryAt(charges[i..], freed, cost, limits.windowMs, retryAt) == RefusedUntil(limits, charges, at, cost)
      {
        assert charges[i..][1..] == charges[i + 1..];
        freed := freed + charges[i].cost;
        if freed >= cost {
          retryAt := charges[i].at + limits.windowMs;
          break;
        }
        i := i + 1;
      }
    }

    /** Charges `cost` now, or says when to come back. */
    method ChargeNow(limits: Limits, at: int, cost: nat) returns (refused: Option<int>)
      modifies this`charges
      ensures var kept := Pruned(old(charges), at - limits.windowMs);
              if Fits(limits, old(charges), at, cost) then refused.None? && charges == kept + [Charge(at, cost)]
              else refused == Some(Max(1, CeilSeconds(RefusedUntil(limits, kept, at, cost) - at))) && charges == kept
    {
      Prune(at - limits.windowMs);
      var spent := Spent();
      if spent + cost > limits.budget {
        var retryAt := FindRetryAt(limits, at, cost, spent);
        return Some(Max(1, CeilSeconds(retryAt - at)));
      }
      charges := charges + [Charge(at, cost)];
      refused := None;
    }

    method Leave() returns (next: Option<CallId>)
      modifies this`running, this`waiting
      ensures (State(), next) == Left(old(State()))
    {
      if |waiting| > 0 {
        next := Some(waiting[0]);
        waiting := waiting[1..];
      } else {
        next := None;
        running := running - 1;
      }
    }
  }

  class UpstreamCallLimiter {
    const limits: Limits
    var actors: map<string, ActorState>

    constructor (limits: Limits)
      ensures this.limits == limits && actors == map[]
    {
      this.limits := limits;
      actors := map[];
    }

    method StateOf(actor: string) returns (state: ActorState)
      modifies this`actors
      ensures if actor in old(actors) then state == old(actors[actor]) && actors == old(actors)
              else fresh(state) && state.State() == NOBODY && actors == old(actors)[actor := state]
    {
      if actor in actors {
        state := actors[actor];
      } else {
        state := new ActorState();
        actors := actors[actor := state];
      }
    }

    method ForgetIfIdle(actor: string, state: ActorState)
      modifies this`actors
      ensures actors == if Idle(state.State()) then old(actors) - {actor} else old(actors)
    {
      if state.running == 0 && |state.waiting| == 0 && |state.charges| == 0 {
        actors := actors - {actor};
      }
    }

    /** A request comes in: it starts, is refused, or joins the queue. */
    method Begin(actor: string, id: CallId, cost: nat, at: int) returns (state: ActorState, answer: Answer, next: Option<CallId>)
      modifies this`actors, if actor in actors then {actors[actor]} else {}
      ensures actor in old(actors) ==> state == old(actors[actor])
      ensures actor !in old(actors) ==> fresh(state)
      ensures var before := if actor in old(actors) then old(actors[actor].State()) else NOBODY;
              Outcome(state.State(), answer, next) == Entered(limits, before, id, at, cost)
      ensures actors == if answer.OverBudget? && Idle(state.State()) then old(actors) - {actor} else old(actors)[actor := state]
    {
      state := StateOf(actor);
      next := None;
      if state.running >= limits.maxConcurrent {
        if |state.waiting| >= limits.maxQueued {
          answer := Busy(BUSY_RETRY_SECONDS);
        } else {
          state.waiting := state.waiting + [id];
          answer := Queued;
        }
      } else {
        state.running := state.running + 1;
        answer, next := Proceed(actor, state, cost, at);
      }
      assert actor in old(actors) ==> old(actors) == old(actors)[actor := state];
      assert actor !in old(actors) ==> old(actors)[actor := state] - {actor} == old(actors) - {actor};
    }

    /** With a slot in hand, just taken or handed over. */
    method Proceed(actor: string, state: ActorState, cost: nat, at: int) returns (answer: Answer, next: Option<CallId>)
      modifies this`actors, state
      ensures Outcome(state.State(), answer, next) == Charged(limits, old(state.State()), at, cost)
      ensures actors == if answer.OverBudget? && Idle(state.State()) then old(actors) - {actor} else old(actors)
    {
      var refused := state.ChargeNow(limits, at, cost);
      if refused.Some? {
        answer := OverBudget(refused.value);
        next := Finish(actor, state);
      } else {
        answer, next := Started, None;
      }
    }

    /** The request is over, one way or another. */
    method Finish(actor: string, state: ActorState) returns (next: Option<CallId>)
      modifies this`actors, state`running, state`waiting
      ensures (state.State(), next) == Left(old(state.State()))
      ensures actors == if Idle(state.State()) then old(actors) - {actor} else old(actors)
    {
      next := state.Leave();
      ForgetIfIdle(actor, state);
    }
  }

  // ---------------------------------------------------------------------------------------------
  // When to come back
  // ---------------------------------------------------------------------------------------------

  predicate Rising(charges: seq<Charge>) {
    forall i, j :: 0 <= i < j < |charges| ==> charges[i].at <= charges[j].at
  }

  lemma {:induction false} PrunedFacts(charges: seq<Charge>, horizon: int)
    requires Rising(charges)
    ensures var kept := Pruned(charges, horizon);
            && Sum(kept) <= Sum(charges) && Rising(kept)
            && (forall c :: c in kept <==> c in charges && c.at > horizon)
  {
    if charges != [] {
      assert charges == [charges[0]] + charges[1..];
      if charges[0].at <= horizon {
        PrunedFacts(charges[1..], horizon);
      } else {
        assert forall c :: c in charges ==> c.at >= charges[0].at;
      }
    }
  }

  lemma {:induction false} PruneTwice(charges: seq<Charge>, h: int, k: int)
    requires h <= k
    ensures Pruned(Pruned(charges, h), k) == Pruned(charges, k)
  {
    if charges != [] && charges[0].at <= h {
      PruneTwice(charges[1..], h, k);
    }
  }

  lemma RisingTail(charges: seq<Charge>)
    requires Rising(charges) && charges != []
    ensures Rising(charges[1..])
  {
  }

  lemma {:induction false} RetryAtIsACharge(kept: seq<Charge>, freed: int, cost: nat, windowMs: nat, never: int)
    requires Rising(kept) && freed < cost <= freed + Sum(kept)
    ensures kept != [] && kept[0].at + windowMs <= RetryAt(kept, freed, cost, windowMs, never) <= kept[|kept| - 1].at + windowMs
  {
    if freed + kept[0].cost < cost {
      RisingTail(kept);
      RetryAtIsACharge(kept[1..], freed + kept[0].cost, cost, windowMs, never);
    }
  }

  /** The refused request would fit from `RetryAt` on and at no earlier time. */
  lemma {:induction false} RetryAtIsLeast(kept: seq<Charge>, budget: int, cost: nat, windowMs: nat, never: int, t: int)
    requires Rising(kept) && cost <= budget && Sum(kept) + cost > budget
    ensures Sum(Pruned(kept, t - windowMs)) + cost <= budget
            <==> t >= RetryAt(kept, budget - Sum(kept), cost, windowMs, never)
  {
    var freed := budget - Sum(kept);
    RetryAtIsACharge(kept, freed, cost, windowMs, never);
    RisingTail(kept);
    if freed + kept[0].cost < cost {
      RetryAtIsLeast(kept[1..], budget, cost, windowMs, never, t);
    } else {
      PrunedFacts(kept[1..], t - windowMs);
    }
  }

  lemma RefusedUntilIsNear(limits: Limits, kept: seq<Charge>, at: int, cost: nat)
    requires Rising(kept) && (forall c :: c in kept ==> at - limits.windowMs < c.at <= at)
    requires cost <= limits.budget && Sum(kept) + cost > limits.budget
    ensures at < RefusedUntil(limits, kept, at, cost) <= at + limits.windowMs
  {
    RetryAtIsACharge(kept, limits.budget - Sum(kept), cost, limits.windowMs, at + limits.windowMs);
    assert kept[0] in kept && kept[|kept| - 1] in kept;
  }

  lemma CeilBounds(ms: int)
    requires ms > 0
    ensures CeilSeconds(ms) >= 1 && 1000 * (CeilSeconds(ms) - 1) < ms <= 1000 * CeilSeconds(ms)
  {
  }

  /** Told to wait, an administrator whose request could ever fit is told the least whole number of
      seconds after which, nothing else being charged, the same request is accepted. */
  lemma WaitIsExact(limits: Limits, a: Actor, at: int, cost: nat)
    requires Rising(a.charges) && (forall c :: c in a.charges ==> c.at <= at)
    requires cost <= limits.budget && Charged(limits, a, at, cost).answer.OverBudget?
    ensures var o := Charged(limits, a, at, cost);
            var wait := o.answer.retryAfterSeconds;
            && wait >= 1
            && (wait - 1) * 1000 < limits.windowMs
            && (forall t :: t >= at + 1000 * wait ==> Charged(limits, o.actor, t, cost).answer.Started?)
            && (forall t :: at <= t <= at + 1000 * (wait - 1) ==> Charged(limits, o.actor, t, cost).answer.OverBudget?)
  {
    var kept := Pruned(a.charges, at - limits.windowMs);
    PrunedFacts(a.charges, at - limits.windowMs);
    RefusedUntilIsNear(limits, kept, at, cost);
    var r := RefusedUntil(limits, kept, at, cost);
    CeilBounds(r - at);
    var o := Charged(limits, a, at, cost);
    forall t ensures Charged(limits, o.actor, t, cost).answer.Started? <==> t >= r {
      AcceptedFrom(limits, o.actor, at, cost, t);
    }
  }

  lemma AcceptedFrom(limits: Limits, refused: Actor, at: int, cost: nat, t: int)
    requires Rising(refused.charges) && cost <= limits.budget && Sum(refused.charges) + cost > limits.budget
    ensures Charged(limits, refused, t, cost).answer.Started? <==> t >= RefusedUntil(limits, refused.charges, at, cost)
  {
    RetryAtIsLeast(refused.charges, limits.budget, cost, limits.windowMs, at + limits.windowMs, t);
  }

  /** Long enough after the last charge, nothing of it counts any more. */
  lemma {:induction false} AllPruned(charges: seq<Charge>, horizon: int)
    requires forall c :: c in charges ==> c.at <= horizon
    ensures Pruned(charges, horizon) == []
  {
    if charges != [] {
      assert charges[0] in charges;
      AllPruned(charges[1..], horizon);
    }
  }

  /** Waiting long enough helps a request if and only if its cost is within the whole budget. */
  lemma AcceptedSomeTimeIff(limits: Limits, a: Actor, at: int, cost: nat)
    requires forall c :: c in a.charges ==> c.at <= at
    ensures (exists t :: t >= at && Charged(limits, a, t, cost).answer.Started?) <==> cost <= limits.budget
  {
    if cost <= limits.budget {
      AllPruned(a.charges, at);
      assert Charged(limits, a, at + limits.windowMs, cost).answer.Started?;
    }
  }
}

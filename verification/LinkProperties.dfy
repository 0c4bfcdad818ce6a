/** The event bridge over whole runs: frames enqueued, acknowledged, evicted and dropped, connections
    that come, go and are replaced, in any order. */
module LinkProperties {
  import opened Wrappers
  import opened ReplayBuffer
  import opened KernelLink

  /** The link, and what became of every number it gave out. */
  datatype Traced = Traced(
    link: Link,
    issued: map<nat, Frame>,
    acked: set<nat>,
    evicted: set<nat>,
    dropped: set<nat>)

  datatype Event =
    | Enqueue(turnId: string, kind: FrameKind, payload: string)
    | Ack(from: SocketId, number: nat)
    | Connect(id: SocketId)
    | Opens(id: SocketId)
    | GoesDown(id: SocketId) // no longer OPEN; `close` has not been reported yet
    | Closes(id: SocketId)
    | Start(id: SocketId)
    | Stop

  function Numbers(buffer: seq<Frame>): set<nat> {
    set f | f in buffer :: f.number
  }

  function AfterEnqueue(t: Traced, limits: Limits, f: Frame): Traced {
    var offered := t.link.buffer + [f];
    var bounded := Bounded(offered, f.turnId, limits.perTurn);
    var kept := Capped(bounded, limits.total);
    Traced(Enqueued(t.link, limits, f.turnId, f.kind, f.payload), t.issued[f.number := f], t.acked,
           t.evicted + (Numbers(offered) - Numbers(bounded)), t.dropped + (Numbers(bounded) - Numbers(kept)))
  }

  function Step(t: Traced, limits: Limits, e: Event): Traced {
    var l := t.link;
    match e
    case Enqueue(turnId, kind, payload) => AfterEnqueue(t, limits, Frame(l.nextSeq, turnId, kind, payload))
    case Ack(_, n) =>
      t.(link := l.(buffer := Acknowledged(l.buffer, n)),
      acked := t.acked + (Numbers(l.buffer) - Numbers(Acknowledged(l.buffer, n))))
    case Connect(s) => if !l.stopped && s !in l.sockets then t.(link := Connected(l, s)) else t
    case Opens(s) => if s in l.sockets && l.sockets[s].state.Connecting? then t.(link := Opened(l, s)) else t
    case GoesDown(s) => if s in l.sockets && l.sockets[s].state.Open? then t.(link := Down(l, s, Closing)) else t
    case Closes(s) => if s in l.sockets && !l.sockets[s].state.Closed? then t.(link := Down(l, s, Closed)) else t
    case Start(s) => if l.stopped && s !in l.sockets then t.(link := Connected(l.(stopped := false), s)) else t
    case Stop => t.(link := Stopped(l))
  }

  function Run(t: Traced, limits: Limits, events: seq<Event>): Traced
    decreases |events|
  {
    if events == [] then t else Run(Step(t, limits, events[0]), limits, events[1..])
  }

  const INITIAL := Traced(Link([], 1, None, map[], true), map[], {}, {}, {})

  // ---------------------------------------------------------------------------------------------
  // Loss accounting
  // ---------------------------------------------------------------------------------------------

  /** Every number ever issued is exactly one of: kept, acknowledged, evicted, dropped by the overall
      cap; and only frames that may be evicted were. */
  ghost predicate Accounted(t: Traced) {
    && t.link.nextSeq >= 1 && Ascending(t.link.buffer)
    && (forall f :: f in t.link.buffer ==> f.number in t.issued && t.issued[f.number] == f)
    && (forall n :: n in t.issued <==> 1 <= n < t.link.nextSeq)
    && t.issued.Keys == Numbers(t.link.buffer) + t.acked + t.evicted + t.dropped
    && Numbers(t.link.buffer) !! t.acked !! t.evicted !! t.dropped
    && (forall n :: n in t.evicted ==> MayBeEvicted(t.issued[n].kind))
  }

  /** A Turn keeps at most its bound, unless everything it keeps is never dropped. */
  ghost predicate TurnsBounded(t: Traced, limits: Limits) {
    forall turnId {:trigger TurnBounded(t.link.buffer, limits, turnId)} :: TurnBounded(t.link.buffer, limits, turnId)
  }

  predicate TurnBounded(buffer: seq<Frame>, limits: Limits, turnId: string) {
    CountOf(buffer, turnId) <= limits.perTurn || CountOf(buffer, turnId) == CountRank(buffer, turnId, 2)
  }

  lemma CappedKeepsOrder(buffer: seq<Frame>, total: nat)
    requires Ascending(buffer)
    ensures var kept := Capped(buffer, total);
            Ascending(kept) && |kept| <= total && (forall f :: f in kept ==> f in buffer)
  {
  }

  /** The numbering alone: whatever is taken out of the buffer is put down as evicted or as dropped. */
  lemma ShrinkingAccounts(t: Traced, f: Frame, bounded: seq<Frame>, kept: seq<Frame>, l: Link)
    requires Accounted(t) && f.number == t.link.nextSeq
    requires Ascending(kept) && (forall g :: g in kept ==> g in bounded)
    requires forall g :: g in bounded ==> g in t.link.buffer + [f]
    requires forall g :: g in t.link.buffer + [f] && g !in bounded ==> MayBeEvicted(g.kind)
    requires l.buffer == kept && l.nextSeq == t.link.nextSeq + 1
    ensures Accounted(Traced(l, t.issued[f.number := f], t.acked,
                             t.evicted + (Numbers(t.link.buffer + [f]) - Numbers(bounded)),
                             t.dropped + (Numbers(bounded) - Numbers(kept))))
  {
    var offered := t.link.buffer + [f];
    assert f.number !in t.issued;
    forall g | g in offered ensures g.number in t.issued[f.number := f] && t.issued[f.number := f][g.number] == g {
      assert g in t.link.buffer || g == f;
    }
    assert Numbers(offered) == Numbers(t.link.buffer) + {f.number};
    assert Numbers(kept) <= Numbers(bounded) <= Numbers(offered);
    forall n | n in Numbers(offered) - Numbers(bounded) ensures MayBeEvicted(t.issued[f.number := f][n].kind) {
      var g :| g in offered && g.number == n;
      assert g !in bounded;
    }
    var u := Traced(l, t.issued[f.number := f], t.acked,
                    t.evicted + (Numbers(offered) - Numbers(bounded)),
                    t.dropped + (Numbers(bounded) - Numbers(kept)));
    assert forall g :: g in kept ==> g in offered;
    assert u.issued.Keys == t.issued.Keys + {f.number};
    assert Numbers(u.link.buffer) == Numbers(kept);
    assert Numbers(u.link.buffer) !! u.acked !! u.evicted !! u.dropped;
    assert u.issued.Keys == Numbers(u.link.buffer) + u.acked + u.evicted + u.dropped;
    assert forall n :: n in u.issued <==> 1 <= n < u.link.nextSeq;
    assert forall n :: n in u.evicted ==> MayBeEvicted(u.issued[n].kind);
  }

  lemma OfferedAscends(t: Traced, f: Frame)
    requires Accounted(t) && f.number == t.link.nextSeq
    ensures Ascending(t.link.buffer + [f])
  {
    assert forall g :: g in t.link.buffer ==> g.number in t.issued;
    assert forall i :: 0 <= i < |t.link.buffer| ==> t.link.buffer[i] in t.link.buffer;
  }

  lemma EnqueueAccounts(t: Traced, limits: Limits, f: Frame)
    requires Accounted(t) && f.number == t.link.nextSeq
    ensures Accounted(AfterEnqueue(t, limits, f))
  {
    var offered := t.link.buffer + [f];
    var bounded := Bounded(offered, f.turnId, limits.perTurn);
    OfferedAscends(t, f);
    BoundedKeepsOrder(offered, f.turnId, limits.perTurn);
    CappedKeepsOrder(bounded, limits.total);
    var u := AfterEnqueue(t, limits, f);
    ShrinkingAccounts(t, f, bounded, Capped(bounded, limits.total), u.link);
  }

  lemma {:induction false} AcknowledgedIsSuffix(buffer: seq<Frame>, n: nat)
    requires Ascending(buffer)
    ensures var kept := Acknowledged(buffer, n);
            && Ascending(kept)
            && (forall f :: f in kept <==> f in buffer && f.number > n)
            && (exists k :: 0 <= k <= |buffer| && kept == buffer[k..])
  {
    if buffer != [] && buffer[0].number <= n {
      assert buffer == [buffer[0]] + buffer[1..];
      AcknowledgedIsSuffix(buffer[1..], n);
      var k :| 0 <= k <= |buffer[1..]| && Acknowledged(buffer[1..], n) == buffer[1..][k..];
      assert buffer[1..][k..] == buffer[k + 1..];
    } else {
      assert buffer[0..] == buffer;
    }
  }

  lemma AckAccounts(t: Traced, limits: Limits, s: SocketId, n: nat)
    requires Accounted(t)
    ensures Accounted(Step(t, limits, Ack(s, n)))
  {
    AcknowledgedIsSuffix(t.link.buffer, n);
    assert Numbers(Acknowledged(t.link.buffer, n)) <= Numbers(t.link.buffer);
  }

  lemma StepAccounts(t: Traced, limits: Limits, e: Event)
    requires Accounted(t)
    ensures Accounted(Step(t, limits, e))
  {
    match e
    case Enqueue(turnId, kind, payload) => EnqueueAccounts(t, limits, Frame(t.link.nextSeq, turnId, kind, payload));
    case Ack(s, n) => AckAccounts(t, limits, s, n);
    case _ =>
  }

  lemma {:induction false} CountOfSuffix(buffer: seq<Frame>, k: nat, turnId: string)
    requires k <= |buffer|
    ensures CountOf(buffer[k..], turnId) <= CountOf(buffer, turnId)
    ensures forall r :: CountRank(buffer[k..], turnId, r) <= CountRank(buffer, turnId, r)
  {
    if k > 0 {
      assert buffer[1..][k - 1..] == buffer[k..];
      CountOfSuffix(buffer[1..], k - 1, turnId);
    }
  }

  lemma SuffixStaysBounded(buffer: seq<Frame>, k: nat, limits: Limits, turnId: string)
    requires k <= |buffer| && TurnBounded(buffer, limits, turnId)
    ensures TurnBounded(buffer[k..], limits, turnId)
  {
    CountOfSuffix(buffer, k, turnId);
    CountsSplit(buffer, turnId);
    CountsSplit(buffer[k..], turnId);
  }

  lemma {:induction false} CountsAppend(buffer: seq<Frame>, f: Frame, turnId: string)
    ensures CountOf(buffer + [f], turnId) == CountOf(buffer, turnId) + (if f.turnId == turnId then 1 else 0)
    ensures forall r :: CountRank(buffer + [f], turnId, r) == CountRank(buffer, turnId, r) + (if Ranked(f, turnId, r) then 1 else 0)
  {
    if buffer != [] {
      assert (buffer + [f])[1..] == buffer[1..] + [f];
      CountsAppend(buffer[1..], f, turnId);
    }
  }

  lemma KeptStaysBounded(buffer: seq<Frame>, limits: Limits, f: Frame, turnId: string)
    requires TurnBounded(buffer, limits, turnId)
    ensures TurnBounded(Kept(buffer, limits, f), limits, turnId)
  {
    var offered := buffer + [f];
    var bounded := Bounded(offered, f.turnId, limits.perTurn);
    RankCounts(offered, f.turnId, limits.perTurn, turnId);
    if turnId != f.turnId {
      CountsAppend(buffer, f, turnId);
      CountsUntouched(offered, f.turnId, limits.perTurn, turnId);
    }
    assert TurnBounded(bounded, limits, turnId);
    if |bounded| > limits.total {
      SuffixStaysBounded(bounded, |bounded| - limits.total, limits, turnId);
    }
  }

  lemma CountsUntouched(buffer: seq<Frame>, turnId: string, max: nat, other: string)
    requires other != turnId
    ensures CountRank(Bounded(buffer, turnId, max), other, 2) == CountRank(buffer, other, 2)
  {
    var d, m := DeltasToDrop(buffer, turnId, max), MessagesToDrop(buffer, turnId, max);
    CountsAfterDropping(buffer, turnId, 0, d, turnId, 1);
    CountsAfterDropping(buffer, turnId, 0, d, other, 2);
    CountsAfterDropping(WithoutOldest(buffer, turnId, 0, d), turnId, 1, m, other, 2);
  }

  lemma StepBoundsTurns(t: Traced, limits: Limits, e: Event)
    requires Accounted(t) && TurnsBounded(t, limits)
    ensures TurnsBounded(Step(t, limits, e), limits)
  {
    var u := Step(t, limits, e);
    forall turnId ensures TurnBounded(u.link.buffer, limits, turnId) {
      assert TurnBounded(t.link.buffer, limits, turnId);
      if e.Enqueue? {
        KeptStaysBounded(t.link.buffer, limits, Frame(t.link.nextSeq, e.turnId, e.kind, e.payload), turnId);
      } else if e.Ack? {
        AcknowledgedIsSuffix(t.link.buffer, e.number);
        var k :| 0 <= k <= |t.link.buffer| && u.link.buffer == t.link.buffer[k..];
        SuffixStaysBounded(t.link.buffer, k, limits, turnId);
      }
    }
  }

  lemma {:induction false} RunAccounts(t: Traced, limits: Limits, events: seq<Event>)
    requires Accounted(t) && TurnsBounded(t, limits)
    ensures Accounted(Run(t, limits, events)) && TurnsBounded(Run(t, limits, events), limits)
    decreases |events|
  {
    if events != [] {
      StepAccounts(t, limits, events[0]);
      StepBoundsTurns(t, limits, events[0]);
      RunAccounts(Step(t, limits, events[0]), limits, events[1..]);
    }
  }

  function TurnNumbers(buffer: seq<Frame>, turnId: string): set<nat> {
    set f | f in buffer && f.turnId == turnId :: f.number
  }

  lemma {:induction false} CountIsSize(buffer: seq<Frame>, turnId: string)
    requires Ascending(buffer)
    ensures CountOf(buffer, turnId) == |TurnNumbers(buffer, turnId)|
  {
    if buffer != [] {
      var rest := buffer[1..];
      CountIsSize(rest, turnId);
      assert buffer == [buffer[0]] + rest;
      if buffer[0].turnId == turnId {
        assert TurnNumbers(buffer, turnId) == TurnNumbers(rest, turnId) + {buffer[0].number};
        assert buffer[0].number !in TurnNumbers(rest, turnId);
      } else {
        assert TurnNumbers(buffer, turnId) == TurnNumbers(rest, turnId);
      }
    }
  }

  /** A Turn keeps at most its bound, or nothing but frames that say how a Turn began or ended. */
  ghost predicate KeepsItsBound(t: Traced, limits: Limits, turnId: string) {
    || |TurnNumbers(t.link.buffer, turnId)| <= limits.perTurn
    || forall f :: f in t.link.buffer && f.turnId == turnId ==>
         f.kind.TurnEnded? || f.kind.TurnAccepted? || f.kind.TurnRejected? || f.kind.TurnUnknown?
  }

  /** The overall cap and every acknowledgement take the oldest: what is kept is younger than anything
      that went that way. */
  ghost predicate OldestGone(t: Traced) {
    forall n, f :: (n in t.dropped || n in t.acked) && f in t.link.buffer ==> n < f.number
  }

  lemma StepTakesOldest(t: Traced, limits: Limits, e: Event)
    requires Accounted(t) && OldestGone(t)
    ensures OldestGone(Step(t, limits, e))
  {
    if e.Ack? {
      AcknowledgedIsSuffix(t.link.buffer, e.number);
    } else if e.Enqueue? {
      EnqueueTakesOldest(t, limits, Frame(t.link.nextSeq, e.turnId, e.kind, e.payload));
    }
  }

  lemma EnqueueTakesOldest(t: Traced, limits: Limits, f: Frame)
    requires Accounted(t) && OldestGone(t) && f.number == t.link.nextSeq
    ensures OldestGone(AfterEnqueue(t, limits, f))
  {
    var offered := t.link.buffer + [f];
    var bounded := Bounded(offered, f.turnId, limits.perTurn);
    OfferedAscends(t, f);
    BoundedKeepsOrder(offered, f.turnId, limits.perTurn);
    CapTakesOldest(bounded, limits.total);
    CappedKeepsOrder(bounded, limits.total);
    var u := AfterEnqueue(t, limits, f);
    forall n, g | (n in u.dropped || n in u.acked) && g in u.link.buffer ensures n < g.number {
      assert g in offered;
      if n in t.dropped || n in t.acked {
        assert n in t.issued;
        assert g in t.link.buffer || g == f;
      }
    }
  }

  lemma CapTakesOldest(bounded: seq<Frame>, total: nat)
    requires Ascending(bounded)
    ensures forall n, f :: n in Numbers(bounded) - Numbers(Capped(bounded, total)) && f in Capped(bounded, total) ==> n < f.number
  {
    var kept := Capped(bounded, total);
    forall n, f | n in Numbers(bounded) - Numbers(kept) && f in kept ensures n < f.number {
      var g :| g in bounded && g.number == n;
      var i, j :| 0 <= i < |bounded| && bounded[i] == g && 0 <= j < |kept| && kept[j] == f;
      assert i < |bounded| - |kept|;
      assert bounded[j + (|bounded| - |kept|)] == f;
    }
  }

  lemma {:induction false} RunTakesOldest(t: Traced, limits: Limits, events: seq<Event>)
    requires Accounted(t) && OldestGone(t)
    ensures OldestGone(Run(t, limits, events))
    decreases |events|
  {
    if events != [] {
      StepAccounts(t, limits, events[0]);
      StepTakesOldest(t, limits, events[0]);
      RunTakesOldest(Step(t, limits, events[0]), limits, events[1..]);
    }
  }

  lemma LossIsAccountedFor(limits: Limits, events: seq<Event>)
    ensures Accounted(Run(INITIAL, limits, events)) && TurnsBounded(Run(INITIAL, limits, events), limits)
    ensures OldestGone(Run(INITIAL, limits, events))
    ensures forall turnId {:trigger KeepsItsBound(Run(INITIAL, limits, events), limits, turnId)} ::
              KeepsItsBound(Run(INITIAL, limits, events), limits, turnId)
  {
    forall turnId ensures TurnBounded(INITIAL.link.buffer, limits, turnId) { }
    RunAccounts(INITIAL, limits, events);
    RunTakesOldest(INITIAL, limits, events);
    var t := Run(INITIAL, limits, events);
    forall turnId ensures KeepsItsBound(t, limits, turnId) {
      assert TurnBounded(t.link.buffer, limits, turnId);
      CountIsSize(t.link.buffer, turnId);
      if CountOf(t.link.buffer, turnId) > limits.perTurn { AllOfTheLastClass(t.link.buffer, turnId); }
    }
  }

  /** The overall cap is the only way a frame that ends or accepts a Turn is ever lost. */
  lemma ProtectedFramesStay(limits: Limits, events: seq<Event>, n: nat)
    requires var t := Run(INITIAL, limits, events);
             n in t.issued && var k := t.issued[n].kind; k.TurnEnded? || k.TurnAccepted? || k.TurnRejected? || k.TurnUnknown?
    ensures var t := Run(INITIAL, limits, events);
            n in t.acked || n in t.dropped || t.issued[n] in t.link.buffer
  {
    LossIsAccountedFor(limits, events);
    var t := Run(INITIAL, limits, events);
    if n in Numbers(t.link.buffer) {
      var f :| f in t.link.buffer && f.number == n;
    }
  }

  /** The step keeps what is kept within the overall cap. */
  predicate FitsCap(t: Traced, limits: Limits, e: Event) {
    e.Enqueue? ==>
      |Bounded(t.link.buffer + [Frame(t.link.nextSeq, e.turnId, e.kind, e.payload)], e.turnId, limits.perTurn)| <= limits.total
  }

  predicate AlwaysFitsCap(t: Traced, limits: Limits, events: seq<Event>)
    decreases |events|
  {
    events != [] ==> FitsCap(t, limits, events[0]) && AlwaysFitsCap(Step(t, limits, events[0]), limits, events[1..])
  }

  /** What is cut off the front of an ascending buffer is gone for good. */
  lemma CapDrops(bounded: seq<Frame>, total: nat)
    requires Ascending(bounded)
    ensures Numbers(bounded) - Numbers(Capped(bounded, total)) == {} <==> |bounded| <= total
  {
    var kept := Capped(bounded, total);
    if |bounded| > total {
      assert bounded[0] in bounded;
      forall f | f in kept ensures f.number != bounded[0].number {
        var i :| 0 <= i < |kept| && kept[i] == f;
        assert kept[i] == bounded[|bounded| - total + i];
      }
      assert bounded[0].number in Numbers(bounded) - Numbers(kept);
    }
  }

  lemma DroppedByStep(t: Traced, limits: Limits, e: Event)
    requires Accounted(t)
    ensures t.dropped <= Step(t, limits, e).dropped
    ensures Step(t, limits, e).dropped == t.dropped <==> FitsCap(t, limits, e)
  {
    if e.Enqueue? {
      var f := Frame(t.link.nextSeq, e.turnId, e.kind, e.payload);
      var offered := t.link.buffer + [f];
      OfferedAscends(t, f);
      BoundedKeepsOrder(offered, f.turnId, limits.perTurn);
      CapDrops(Bounded(offered, f.turnId, limits.perTurn), limits.total);
      NewlyDropped(t, limits, f);
    }
  }

  /** A number is dropped once only. */
  lemma NewlyDropped(t: Traced, limits: Limits, f: Frame)
    requires Accounted(t) && f.number == t.link.nextSeq
    ensures var bounded := Bounded(t.link.buffer + [f], f.turnId, limits.perTurn);
            (Numbers(bounded) - Numbers(Capped(bounded, limits.total))) !! t.dropped
  {
    OfferedAscends(t, f);
    BoundedKeepsOrder(t.link.buffer + [f], f.turnId, limits.perTurn);
    var bounded := Bounded(t.link.buffer + [f], f.turnId, limits.perTurn);
    forall n | n in Numbers(bounded) ensures n !in t.dropped {
      var g :| g in bounded && g.number == n;
      assert g in t.link.buffer || g == f;
    }
  }

  lemma {:induction false} DroppedOverRun(t: Traced, limits: Limits, events: seq<Event>)
    requires Accounted(t)
    ensures t.dropped <= Run(t, limits, events).dropped
    ensures Run(t, limits, events).dropped == t.dropped <==> AlwaysFitsCap(t, limits, events)
    decreases |events|
  {
    if events != [] {
      DroppedByStep(t, limits, events[0]);
      StepAccounts(t, limits, events[0]);
      DroppedOverRun(Step(t, limits, events[0]), limits, events[1..]);
    }
  }

  /** An enqueue leaves no more than the cap, and drops nothing beyond it. */
  lemma DroppingStopsAtTheCap(t: Traced, limits: Limits, e: Event)
    requires Accounted(t) && e.Enqueue?
    ensures var u := Step(t, limits, e);
            |u.link.buffer| <= limits.total && (u.dropped != t.dropped ==> |u.link.buffer| == limits.total)
  {
    DroppedByStep(t, limits, e);
  }

  /** The overall cap drops something in a run if and only if the run exceeds it somewhere. */
  lemma DropsIffOverTheCap(limits: Limits, events: seq<Event>)
    ensures Run(INITIAL, limits, events).dropped == {} <==> AlwaysFitsCap(INITIAL, limits, events)
  {
    DroppedOverRun(INITIAL, limits, events);
  }

  /** So in a run that stays within the cap, every frame that accepts, rejects or ends a Turn and is not
      acknowledged is still kept. */
  lemma ProtectedFramesAreKept(limits: Limits, events: seq<Event>, n: nat)
    requires AlwaysFitsCap(INITIAL, limits, events)
    requires var t := Run(INITIAL, limits, events);
             && n in t.issued && n !in t.acked
             && var k := t.issued[n].kind; k.TurnEnded? || k.TurnAccepted? || k.TurnRejected? || k.TurnUnknown?
    ensures Run(INITIAL, limits, events).issued[n] in Run(INITIAL, limits, events).link.buffer
  {
    DropsIffOverTheCap(limits, events);
    ProtectedFramesStay(limits, events, n);
  }

  /** What one enqueue evicts: nothing of another Turn, only text deltas, messages and tool events, a
      message or tool event only when none of the Turn's text deltas is left, and of each of the two the
      oldest. */
  lemma EvictionSparesMessages(t: Traced, limits: Limits, f: Frame, n: nat)
    requires Accounted(t) && f.number == t.link.nextSeq
    requires n in AfterEnqueue(t, limits, f).evicted && n !in t.evicted
    ensures var u := AfterEnqueue(t, limits, f);
            var k := u.issued[n].kind;
            && u.issued[n].turnId == f.turnId
            && (k.TextDelta? || k.Message? || k.ToolCallStarted? || k.ToolCallEnded?)
            && (!k.TextDelta? ==> forall g :: g in u.link.buffer && g.turnId == f.turnId ==> !g.kind.TextDelta?)
            && (forall g | g in u.link.buffer && g.turnId == f.turnId && MayBeEvicted(g.kind)
                           && (k.TextDelta? <==> g.kind.TextDelta?) :: n < g.number)
  {
    var offered := t.link.buffer + [f];
    var bounded := Bounded(offered, f.turnId, limits.perTurn);
    OfferedAscends(t, f);
    BoundedKeepsOrder(offered, f.turnId, limits.perTurn);
    var v :| v in offered && v.number == n;
    assert v !in bounded;
    VictimIsIssued(t, f, v);
    if !v.kind.TextDelta? {
      LosingAMessage(offered, f.turnId, limits.perTurn, v);
    }
    var u := AfterEnqueue(t, limits, f);
    forall g | g in u.link.buffer && g.turnId == f.turnId && MayBeEvicted(g.kind) && (v.kind.TextDelta? <==> g.kind.TextDelta?)
      ensures n < g.number
    {
      BoundedEvictsOldest(offered, f.turnId, limits.perTurn, v, g);
    }
  }

  lemma VictimIsIssued(t: Traced, f: Frame, v: Frame)
    requires Accounted(t) && f.number == t.link.nextSeq && v in t.link.buffer + [f]
    ensures t.issued[f.number := f][v.number] == v
  {
    assert v in t.link.buffer || v == f;
    assert f.number !in t.issued;
  }

  lemma LosingAMessage(offered: seq<Frame>, turnId: string, max: nat, v: Frame)
    requires Ascending(offered) && v in offered && Ranked(v, turnId, 1) && v !in Bounded(offered, turnId, max)
    ensures forall g :: g in Bounded(offered, turnId, max) && g.turnId == turnId ==> g.kind != TextDelta
  {
    var bounded := Bounded(offered, turnId, max);
    RankCounts(offered, turnId, max, turnId);
    LosingOneLowersTheCount(offered, turnId, max, v);
    forall g | g in bounded && g.turnId == turnId ensures g.kind != TextDelta {
      var i :| 0 <= i < |bounded| && bounded[i] == g;
      if g.kind == TextDelta { SomeCounts(bounded, turnId, 0, i); }
    }
  }

  lemma LosingOneLowersTheCount(offered: seq<Frame>, turnId: string, max: nat, v: Frame)
    requires Ascending(offered)
    requires v in offered && v !in Bounded(offered, turnId, max) && Ranked(v, turnId, 1)
    ensures CountRank(Bounded(offered, turnId, max), turnId, 1) < CountRank(offered, turnId, 1)
  {
    var d, m := DeltasToDrop(offered, turnId, max), MessagesToDrop(offered, turnId, max);
    var mid := WithoutOldest(offered, turnId, 0, d);
    CountsAfterDropping(offered, turnId, 0, d, turnId, 1);
    CountsAfterDropping(mid, turnId, 1, m, turnId, 1);
    DroppingKeepsOrder(offered, turnId, 0, d);
    assert v in mid;
    assert m != 0;
  }
}

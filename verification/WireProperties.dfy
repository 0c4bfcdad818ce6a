/** What the kernel is sent, over whole runs of the event bridge: the order on each connection, and what
    an acknowledgement can take away. */
module WireProperties {
  import opened Wrappers
  import opened ReplayBuffer
  import opened KernelLink
  import opened LinkProperties

  ghost predicate FrameAt(t: Traced, wire: seq<Message>, i: nat) {
    0 < i < |wire| ==>
      && wire[i].Sent?
      && wire[i].frame.number in t.issued
      && t.issued[wire[i].frame.number] == wire[i].frame
      && (i + 1 < |wire| ==> wire[i + 1].Sent? && wire[i].frame.number < wire[i + 1].frame.number)
  }

  /** `hello` first, then issued frames, their numbers strictly rising. */
  ghost predicate InOrder(t: Traced, wire: seq<Message>) {
    && (wire != [] ==> wire[0] == Hello)
    && (forall i: nat {:trigger FrameAt(t, wire, i)} :: FrameAt(t, wire, i))
  }

  /** Whatever is still kept was written before anything later was. */
  ghost predicate NothingSkipped(t: Traced, wire: seq<Message>) {
    forall f, g | f in t.link.buffer && Sent(g) in wire && f.number <= g.number :: Sent(f) in wire
  }

  ghost predicate Complete(t: Traced, wire: seq<Message>) {
    forall f | f in t.link.buffer :: Sent(f) in wire
  }

  ghost predicate SocketOk(t: Traced, s: SocketId) {
    s in t.link.sockets ==>
      var k := t.link.sockets[s];
      && (k.state.Connecting? ==> k.wire == [])
      && (k.state.Open? ==> k.wire != [])
      && InOrder(t, k.wire)
      && NothingSkipped(t, k.wire)
      && (k.state.Open? && t.link.socket == Some(s) ==> Complete(t, k.wire))
  }

  ghost predicate WiresOk(t: Traced) {
    forall s {:trigger SocketOk(t, s)} :: SocketOk(t, s)
  }

  ghost predicate Inv(t: Traced) {
    Accounted(t) && WiresOk(t)
  }

  // ---------------------------------------------------------------------------------------------

  /** A step that issues nothing, keeps no more than before and leaves this wire alone keeps its promises. */
  lemma ShrinkingKeepsSocket(t: Traced, u: Traced, s: SocketId)
    requires SocketOk(t, s) && s in t.link.sockets && s in u.link.sockets
    requires u.link.sockets[s].wire == t.link.sockets[s].wire
    requires forall f :: f in u.link.buffer ==> f in t.link.buffer
    requires u.issued == t.issued
    requires u.link.sockets[s].state != t.link.sockets[s].state ==> u.link.sockets[s].state.Closing? || u.link.sockets[s].state.Closed?
    requires u.link.socket == t.link.socket || u.link.socket != Some(s)
    ensures SocketOk(u, s)
  {
    var wire := t.link.sockets[s].wire;
    forall i: nat ensures FrameAt(u, wire, i) {
      assert FrameAt(t, wire, i);
    }
  }

  lemma KeptIsFromBefore(buffer: seq<Frame>, limits: Limits, f: Frame)
    requires Ascending(buffer + [f])
    ensures forall g :: g in Kept(buffer, limits, f) ==> g in buffer || g == f
  {
    BoundedKeepsOrder(buffer + [f], f.turnId, limits.perTurn);
    assert forall g :: g in buffer + [f] ==> g in buffer || g == f;
  }

  lemma StillInOrder(t: Traced, u: Traced, f: Frame, wire: seq<Message>)
    requires Accounted(t) && f.number == t.link.nextSeq && u.issued == t.issued[f.number := f]
    requires InOrder(t, wire)
    ensures InOrder(u, wire)
    ensures wire != [] ==> InOrder(u, wire + [Sent(f)])
  {
    var w := wire + [Sent(f)];
    forall i: nat ensures FrameAt(u, wire, i) && (wire != [] ==> FrameAt(u, w, i)) {
      assert FrameAt(t, wire, i);
      if 0 < i < |wire| {
        assert w[i] == wire[i];
        assert w[i + 1] == if i + 1 < |wire| then wire[i + 1] else Sent(f);
      }
    }
  }

  /** A wire that carries nothing unissued. */
  lemma {:induction false} OnlyIssuedIsSent(t: Traced, wire: seq<Message>, g: Frame)
    requires InOrder(t, wire) && Sent(g) in wire
    ensures g.number in t.issued && t.issued[g.number] == g
  {
    var i :| 0 <= i < |wire| && wire[i] == Sent(g);
    assert FrameAt(t, wire, i);
  }

  lemma EnqueueKeepsSocket(t: Traced, limits: Limits, f: Frame, s: SocketId)
    requires Accounted(t) && f.number == t.link.nextSeq && SocketOk(t, s)
    ensures SocketOk(AfterEnqueue(t, limits, f), s)
  {
    if s in t.link.sockets {
      var u := AfterEnqueue(t, limits, f);
      var before, after := t.link.sockets[s].wire, u.link.sockets[s].wire;
      OfferedAscends(t, f);
      KeptIsFromBefore(t.link.buffer, limits, f);
      assert forall g :: g in u.link.buffer ==> g in t.link.buffer || g == f;
      StillInOrder(t, u, f, before);
      forall g, h | g in u.link.buffer && Sent(h) in after && g.number <= h.number ensures Sent(g) in after {
        if Sent(h) in before {
          OnlyIssuedIsSent(t, before, h);
          assert g != f;
        } else if g != f {
          assert Complete(t, before);
        }
      }
    }
  }

  lemma EnqueueKeepsInv(t: Traced, limits: Limits, f: Frame)
    requires Inv(t) && f.number == t.link.nextSeq
    ensures Inv(AfterEnqueue(t, limits, f))
  {
    EnqueueAccounts(t, limits, f);
    forall s ensures SocketOk(AfterEnqueue(t, limits, f), s) {
      assert SocketOk(t, s);
      EnqueueKeepsSocket(t, limits, f, s);
    }
  }

  lemma ReplayIsInOrder(t: Traced)
    requires Accounted(t)
    ensures InOrder(t, [Hello] + Replay(t.link.buffer)) && Complete(t, [Hello] + Replay(t.link.buffer))
  {
    var buffer := t.link.buffer;
    var wire := [Hello] + Replay(buffer);
    forall f | f in buffer ensures Sent(f) in wire {
      var i :| 0 <= i < |buffer| && buffer[i] == f;
      assert wire[i + 1] == Sent(f);
    }
    forall i: nat ensures FrameAt(t, wire, i) {
      if 0 < i < |wire| {
        assert wire[i] == Sent(buffer[i - 1]) && buffer[i - 1] in buffer;
      }
    }
  }

  lemma OpenKeepsSocket(t: Traced, s: SocketId, r: SocketId)
    requires Accounted(t) && SocketOk(t, s) && SocketOk(t, r)
    requires s in t.link.sockets && t.link.sockets[s].state.Connecting?
    ensures SocketOk(t.(link := Opened(t.link, s)), r)
  {
    var u := t.(link := Opened(t.link, s));
    if r == s {
      ReplayIsInOrder(t);
      var wire := [Hello] + Replay(t.link.buffer);
      assert u.link.sockets[s].wire == wire;
      assert u.link.buffer == t.link.buffer && u.issued == t.issued;
      forall i: nat ensures FrameAt(u, wire, i) { assert FrameAt(t, wire, i); }
    } else if r in t.link.sockets {
      ShrinkingKeepsSocket(t, u, r);
    }
  }

  lemma OpenKeepsInv(t: Traced, s: SocketId)
    requires Inv(t) && s in t.link.sockets && t.link.sockets[s].state.Connecting?
    ensures Inv(t.(link := Opened(t.link, s)))
  {
    assert SocketOk(t, s);
    forall r ensures SocketOk(t.(link := Opened(t.link, s)), r) {
      assert SocketOk(t, r);
      OpenKeepsSocket(t, s, r);
    }
  }

  lemma OtherStepsKeepInv(t: Traced, limits: Limits, e: Event)
    requires Inv(t) && !e.Enqueue? && !e.Opens?
    ensures Inv(Step(t, limits, e))
  {
    StepAccounts(t, limits, e);
    var u := Step(t, limits, e);
    if e.Ack? { AcknowledgedIsSuffix(t.link.buffer, e.number); }
    forall s ensures SocketOk(u, s) {
      assert SocketOk(t, s);
      if s in t.link.sockets {
        ShrinkingKeepsSocket(t, u, s);
      }
    }
  }

  lemma StepKeepsInv(t: Traced, limits: Limits, e: Event)
    requires Inv(t)
    ensures Inv(Step(t, limits, e))
  {
    if e.Enqueue? {
      EnqueueKeepsInv(t, limits, Frame(t.link.nextSeq, e.turnId, e.kind, e.payload));
    } else if e.Opens? {
      if e.id in t.link.sockets && t.link.sockets[e.id].state.Connecting? { OpenKeepsInv(t, e.id); }
    } else {
      OtherStepsKeepInv(t, limits, e);
    }
  }

  lemma {:induction false} RunKeepsInv(t: Traced, limits: Limits, events: seq<Event>)
    requires Inv(t)
    ensures Inv(Run(t, limits, events))
    decreases |events|
  {
    if events != [] {
      StepKeepsInv(t, limits, events[0]);
      RunKeepsInv(Step(t, limits, events[0]), limits, events[1..]);
    }
  }

  lemma Reached(limits: Limits, events: seq<Event>)
    ensures Inv(Run(INITIAL, limits, events))
  {
    forall s ensures SocketOk(INITIAL, s) { }
    RunKeepsInv(INITIAL, limits, events);
  }

  // ---------------------------------------------------------------------------------------------
  // Results
  // ---------------------------------------------------------------------------------------------

  lemma {:induction false} Rising(t: Traced, wire: seq<Message>, i: nat, j: nat)
    requires InOrder(t, wire) && 0 < i < j < |wire|
    ensures wire[i].Sent? && wire[j].Sent? && wire[i].frame.number < wire[j].frame.number
    decreases j - i
  {
    assert FrameAt(t, wire, i) && FrameAt(t, wire, i + 1);
    if i + 1 < j { Rising(t, wire, i + 1, j); }
  }

  /** On every connection of every run: `hello` is first and only there, numbers strictly rise, and only
      frames that were issued go out. */
  lemma WireOrder(limits: Limits, events: seq<Event>, s: SocketId, i: nat, j: nat)
    requires var l := Run(INITIAL, limits, events).link; s in l.sockets && i < j < |l.sockets[s].wire|
    ensures var t := Run(INITIAL, limits, events);
            var wire := t.link.sockets[s].wire;
            && wire[0] == Hello && wire[j].Sent?
            && wire[j].frame.number in t.issued && t.issued[wire[j].frame.number] == wire[j].frame
            && (i > 0 ==> wire[i].Sent? && wire[i].frame.number < wire[j].frame.number)
  {
    Reached(limits, events);
    var t := Run(INITIAL, limits, events);
    assert SocketOk(t, s);
    var wire := t.link.sockets[s].wire;
    assert FrameAt(t, wire, j);
    if i > 0 { Rising(t, wire, i, j); }
  }

  /** A connection that opens is sent `hello` and then everything not acknowledged, oldest first; and as
      long as it is the one in use and open, everything kept has been written to it. */
  lemma NothingKeptIsUnsent(limits: Limits, events: seq<Event>)
    requires IsOpen(Run(INITIAL, limits, events).link)
    ensures var l := Run(INITIAL, limits, events).link;
            forall f :: f in l.buffer ==> Sent(f) in l.sockets[l.socket.value].wire
  {
    Reached(limits, events);
    var t := Run(INITIAL, limits, events);
    assert SocketOk(t, t.link.socket.value);
  }

  lemma OpeningReplays(limits: Limits, events: seq<Event>, s: SocketId)
    requires var l := Run(INITIAL, limits, events).link; s in l.sockets && l.sockets[s].state.Connecting?
    ensures var before := Run(INITIAL, limits, events).link;
            var after := Step(Run(INITIAL, limits, events), limits, Opens(s)).link;
            && after.sockets[s].wire == [Hello] + Replay(before.buffer)
            && (before.socket == Some(s) ==> IsOpen(after))
            && Ascending(before.buffer)
  {
    Reached(limits, events);
    assert SocketOk(Run(INITIAL, limits, events), s);
  }

  /** The kernel acknowledges on a connection only a number it was sent there. */
  ghost predicate HonestAck(t: Traced, e: Event) {
    e.Ack? ==> e.from in t.link.sockets && exists f: Frame :: f.number == e.number && Sent(f) in t.link.sockets[e.from].wire
  }

  ghost predicate HonestRun(t: Traced, limits: Limits, events: seq<Event>)
    decreases |events|
  {
    events != [] ==> HonestAck(t, events[0]) && HonestRun(Step(t, limits, events[0]), limits, events[1..])
  }

  /** A cumulative acknowledgement covers only frames the same connection carried, although eviction
      leaves gaps in the numbers and each connection starts where the last one was cut. */
  lemma AckCoversOnlyWhatWasSent(t: Traced, limits: Limits, e: Event, n: nat)
    requires Inv(t) && e.Ack? && HonestAck(t, e)
    requires n in Step(t, limits, e).acked && n !in t.acked
    ensures n in t.issued && Sent(t.issued[n]) in t.link.sockets[e.from].wire
  {
    AcknowledgedIsSuffix(t.link.buffer, e.number);
    var f :| f in t.link.buffer && f.number == n && f !in Acknowledged(t.link.buffer, e.number);
    var g: Frame :| g.number == e.number && Sent(g) in t.link.sockets[e.from].wire;
    assert SocketOk(t, e.from);
    assert f.number <= g.number;
  }

  ghost predicate WasSent(t: Traced, n: nat) {
    n in t.issued && exists s :: s in t.link.sockets && Sent(t.issued[n]) in t.link.sockets[s].wire
  }

  ghost predicate AckedWasSent(t: Traced) {
    forall n {:trigger WasSent(t, n)} :: n in t.acked ==> WasSent(t, n)
  }

  lemma SentStaysSent(t: Traced, limits: Limits, e: Event, n: nat)
    requires Inv(t) && WasSent(t, n)
    ensures WasSent(Step(t, limits, e), n)
  {
    var s :| s in t.link.sockets && Sent(t.issued[n]) in t.link.sockets[s].wire;
    var u := Step(t, limits, e);
    assert s in u.link.sockets && Sent(t.issued[n]) in u.link.sockets[s].wire;
    assert n != t.link.nextSeq;
  }

  lemma HonestStepKeeps(t: Traced, limits: Limits, e: Event)
    requires Inv(t) && AckedWasSent(t) && HonestAck(t, e)
    ensures AckedWasSent(Step(t, limits, e))
  {
    var u := Step(t, limits, e);
    forall n | n in u.acked ensures WasSent(u, n) {
      if n in t.acked {
        assert WasSent(t, n);
      } else {
        AckCoversOnlyWhatWasSent(t, limits, e, n);
        assert WasSent(t, n);
      }
      SentStaysSent(t, limits, e, n);
    }
  }

  lemma {:induction false} HonestRunKeeps(t: Traced, limits: Limits, events: seq<Event>)
    requires Inv(t) && AckedWasSent(t) && HonestRun(t, limits, events)
    ensures AckedWasSent(Run(t, limits, events))
    decreases |events|
  {
    if events != [] {
      HonestStepKeeps(t, limits, events[0]);
      StepKeepsInv(t, limits, events[0]);
      HonestRunKeeps(Step(t, limits, events[0]), limits, events[1..]);
    }
  }

  /** In every run with an honest kernel, a frame that accepts, rejects or ends a Turn was written to
      some connection, is still kept, or went for the overall cap. */
  lemma ProtectedFramesReachTheWire(limits: Limits, events: seq<Event>, n: nat)
    requires HonestRun(INITIAL, limits, events)
    requires var t := Run(INITIAL, limits, events);
             n in t.issued && var k := t.issued[n].kind; k.TurnEnded? || k.TurnAccepted? || k.TurnRejected? || k.TurnUnknown?
    ensures var t := Run(INITIAL, limits, events);
            || n in t.dropped
            || t.issued[n] in t.link.buffer
            || exists s :: s in t.link.sockets && Sent(t.issued[n]) in t.link.sockets[s].wire
  {
    ProtectedFramesStay(limits, events, n);
    Reached(limits, []);
    HonestRunKeeps(INITIAL, limits, events);
    var t := Run(INITIAL, limits, events);
    if n in t.acked { assert WasSent(t, n); }
  }
}

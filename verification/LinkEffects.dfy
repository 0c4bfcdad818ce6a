/** What each event of the event bridge does to its connections: which one is in use, and what is written
    to which. */
module LinkEffects {
  import opened Wrappers
  import opened ReplayBuffer
  import opened KernelLink
  import opened LinkProperties
  import opened WireProperties

  function WireOf(l: Link, s: SocketId): seq<Message> {
    if s in l.sockets then l.sockets[s].wire else []
  }

  function StateOf(l: Link, s: SocketId): ReadyState {
    if s in l.sockets then l.sockets[s].state else Closed
  }

  ghost predicate SameWires(l: Link, m: Link) {
    forall s {:trigger WireOf(m, s)} :: WireOf(m, s) == WireOf(l, s)
  }

  ghost predicate OnlyWrites(l: Link, m: Link, s: SocketId, messages: seq<Message>) {
    && WireOf(m, s) == WireOf(l, s) + messages
    && (forall r {:trigger WireOf(m, r)} :: r != s ==> WireOf(m, r) == WireOf(l, r))
  }

  /** A new frame gets the next number and goes out at once on the connection in use, if that is open, and
      nowhere else. */
  lemma EnqueueWritesOnce(t: Traced, limits: Limits, turnId: string, kind: FrameKind, payload: string)
    ensures var u := Step(t, limits, Enqueue(turnId, kind, payload));
            var f := Frame(t.link.nextSeq, turnId, kind, payload);
            && u.issued == t.issued[t.link.nextSeq := f] && u.link.nextSeq == t.link.nextSeq + 1
            && u.link.socket == t.link.socket && u.link.stopped == t.link.stopped
            && (forall s {:trigger StateOf(u.link, s)} :: StateOf(u.link, s) == StateOf(t.link, s))
            && (if t.link.socket.Some? && StateOf(t.link, t.link.socket.value) == Open then
                  OnlyWrites(t.link, u.link, t.link.socket.value, [Sent(f)])
                else SameWires(t.link, u.link))
  {
  }

  /** A connection that opens, in use or not, is sent `hello` and what is kept, oldest first. */
  lemma OpeningWrites(t: Traced, limits: Limits, s: SocketId)
    requires s in t.link.sockets && t.link.sockets[s].state == Connecting
    ensures var u := Step(t, limits, Opens(s));
            && StateOf(u.link, s) == Open && u.link.socket == t.link.socket && u.link.buffer == t.link.buffer
            && |WireOf(u.link, s)| == |WireOf(t.link, s)| + 1 + |t.link.buffer|
            && OnlyWrites(t.link, u.link, s, WireOf(u.link, s)[|WireOf(t.link, s)|..])
            && WireOf(u.link, s)[|WireOf(t.link, s)|] == Hello
            && (forall i :: 0 <= i < |t.link.buffer| ==> WireOf(u.link, s)[|WireOf(t.link, s)| + 1 + i] == Sent(t.link.buffer[i]))
  {
    var u := Step(t, limits, Opens(s));
    assert WireOf(u.link, s) == WireOf(t.link, s) + ([Hello] + Replay(t.link.buffer));
  }

  /** Nothing else writes anything. */
  lemma OtherEventsWriteNothing(t: Traced, limits: Limits, e: Event)
    requires !e.Enqueue? && (e.Opens? ==> StateOf(t.link, e.id) != Connecting)
    ensures SameWires(t.link, Step(t, limits, e).link)
  {
  }

  /** Which connection is in use: the one begun last, until it is closed or the bridge is stopped. A
      stopped bridge begins none but by being started, a started one is not started again. */
  lemma ConnectionInUse(t: Traced, limits: Limits, s: SocketId)
    ensures var u := Step(t, limits, Connect(s)).link;
            if !t.link.stopped && s !in t.link.sockets then
              u.socket == Some(s) && StateOf(u, s) == Connecting && !u.stopped && u.buffer == t.link.buffer
            else u == t.link
    ensures var u := Step(t, limits, Start(s)).link;
            if t.link.stopped && s !in t.link.sockets then
              u.socket == Some(s) && StateOf(u, s) == Connecting && !u.stopped && u.buffer == t.link.buffer
            else u == t.link
    ensures var u := Step(t, limits, Closes(s)).link;
            && StateOf(u, s) == Closed && u.buffer == t.link.buffer && u.stopped == t.link.stopped
            && (s in t.link.sockets && t.link.sockets[s].state != Closed ==>
                  u.socket == if t.link.socket == Some(s) then None else t.link.socket)
    ensures var u := Step(t, limits, Stop).link;
            && u.stopped && u.socket.None? && u.buffer == t.link.buffer
            && (t.link.socket == Some(s) ==> StateOf(u, s) == Closing || StateOf(u, s) == Closed)
            && (t.link.socket != Some(s) ==> StateOf(u, s) == StateOf(t.link, s))
  {
  }

  /** In any state of any run that is not stopped, a new connection that comes up carries `hello`, everything
      kept, and from then on whatever is enqueued next. */
  lemma ReconnectingReplays(limits: Limits, events: seq<Event>, s: SocketId, turnId: string, kind: FrameKind, payload: string)
    requires var l := Run(INITIAL, limits, events).link; !l.stopped && s !in l.sockets
    ensures var t := Run(INITIAL, limits, events);
            var u := Step(Step(t, limits, Connect(s)), limits, Opens(s));
            var v := Step(u, limits, Enqueue(turnId, kind, payload));
            && u.link.socket == Some(s) && IsOpen(u.link)
            && WireOf(u.link, s) == [Hello] + Replay(t.link.buffer)
            && WireOf(v.link, s) == WireOf(u.link, s) + [Sent(Frame(t.link.nextSeq, turnId, kind, payload))]
            && Ascending(t.link.buffer)
  {
    Reached(limits, events);
    var t := Run(INITIAL, limits, events);
    var m := Step(t, limits, Connect(s));
    assert WireOf(m.link, s) == [];
    assert Step(m, limits, Opens(s)).link == Opened(m.link, s);
  }
}

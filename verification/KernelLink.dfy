/** The event bridge's link to the kernel: numbering, the replay buffer and its loops, acknowledgement,
    and what goes out on each connection. `Link` and its functions say what one event does; the
    `KernelLink` object is proved to do exactly that. */
module KernelLink {
  import opened Wrappers
  import opened ReplayBuffer

  type SocketId = nat

  datatype ReadyState = Connecting | Open | Closing | Closed

  datatype Message = Hello | Sent(frame: Frame)

  /** One connection: its state, and everything written to it so far. */
  datatype Socket = Socket(state: ReadyState, wire: seq<Message>)

  /** `socket`: the connection frames are sent on now. */
  datatype Link = Link(
    buffer: seq<Frame>,
    nextSeq: nat,
    socket: Option<SocketId>,
    sockets: map<SocketId, Socket>,
    stopped: bool)

  datatype Limits = Limits(perTurn: nat, total: nat)

  function Capped(buffer: seq<Frame>, total: nat): seq<Frame> {
    if |buffer| > total then buffer[|buffer| - total..] else buffer
  }

  function Kept(buffer: seq<Frame>, limits: Limits, f: Frame): seq<Frame> {
    Capped(Bounded(buffer + [f], f.turnId, limits.perTurn), limits.total)
  }

  predicate IsOpen(l: Link) {
    l.socket.Some? && l.socket.value in l.sockets && l.sockets[l.socket.value].state.Open?
  }

  function Write(sockets: map<SocketId, Socket>, s: SocketId, messages: seq<Message>): map<SocketId, Socket>
    requires s in sockets
  {
    sockets[s := sockets[s].(wire := sockets[s].wire + messages)]
  }

  function Enqueued(l: Link, limits: Limits, turnId: string, kind: FrameKind, payload: string): Link {
    var f := Frame(l.nextSeq, turnId, kind, payload);
    l.(buffer := Kept(l.buffer, limits, f), nextSeq := l.nextSeq + 1,
    sockets := if IsOpen(l) then Write(l.sockets, l.socket.value, [Sent(f)]) else l.sockets)
  }

  function Acknowledged(buffer: seq<Frame>, n: nat): seq<Frame> {
    if buffer != [] && buffer[0].number <= n then Acknowledged(buffer[1..], n) else buffer
  }

  function Replay(buffer: seq<Frame>): seq<Message> {
    seq(|buffer|, i requires 0 <= i < |buffer| => Sent(buffer[i]))
  }

  /** A new connection is begun; it takes the place of the one before. */
  function Connected(l: Link, s: SocketId): Link {
    l.(socket := Some(s), sockets := l.sockets[s := Socket(Connecting, [])])
  }

  /** The `open` handler: `hello`, then everything kept, oldest first. */
  function Opened(l: Link, s: SocketId): Link
    requires s in l.sockets
  {
    l.(sockets := l.sockets[s := Socket(Open, l.sockets[s].wire + ([Hello] + Replay(l.buffer)))])
  }

  function Down(l: Link, s: SocketId, state: ReadyState): Link
    requires s in l.sockets
  {
    l.(sockets := l.sockets[s := l.sockets[s].(state := state)],
    socket := if state.Closed? && l.socket == Some(s) then None else l.socket)
  }

  /** `stop`: the connection in use is closed and forgotten. */
  function Stopped(l: Link): Link {
    var m := if l.socket.Some? && l.socket.value in l.sockets && !l.sockets[l.socket.value].state.Closed?
             then Down(l, l.socket.value, Closing) else l;
    m.(stopped := true, socket := None)
  }

  class EventBridge {
    const limits: Limits
    var buffer: seq<Frame>
    var nextSeq: nat
    var socket: Option<SocketId>
    var sockets: map<SocketId, Socket>
    var stopped: bool

    ghost function State(): Link
      reads this
    {
      Link(buffer, nextSeq, socket, sockets, stopped)
    }

    constructor (limits: Limits)
      ensures State() == Link([], 1, None, map[], true) && this.limits == limits
    {
      this.limits := limits;
      buffer, nextSeq, socket, sockets, stopped := [], 1, None, map[], true;
    }

    /** The frame of the Turn that goes next: its oldest text delta, else its oldest message or tool
        event, else none. */
    method FindVictim(turnId: string) returns (victim: int)
      ensures -1 <= victim < |buffer|
      ensures victim >= 0 ==> buffer[victim].turnId == turnId
      ensures victim >= 0 && buffer[victim].kind.TextDelta? ==>
                forall i :: 0 <= i < victim && buffer[i].turnId == turnId ==> !buffer[i].kind.TextDelta?
      ensures victim >= 0 && !buffer[victim].kind.TextDelta? ==>
                && (buffer[victim].kind.Message? || buffer[victim].kind.ToolCallStarted? || buffer[victim].kind.ToolCallEnded?)
                && (forall i :: 0 <= i < |buffer| && buffer[i].turnId == turnId ==> !buffer[i].kind.TextDelta?)
                && (forall i :: 0 <= i < victim && buffer[i].turnId == turnId ==> !MayBeEvicted(buffer[i].kind))
      ensures victim < 0 ==> forall i :: 0 <= i < |buffer| && buffer[i].turnId == turnId ==> !MayBeEvicted(buffer[i].kind)
    {
      victim := -1;
      var victimRank := 2;
      var i := 0;
      while i < |buffer|
        invariant 0 <= i <= |buffer|
        invariant victimRank == 1 || victimRank == 2
        invariant victim < i && (victim < 0 <==> victimRank == 2) && victim >= -1
        invariant forall j :: 0 <= j < i ==> !Ranked(buffer[j], turnId, 0)
        invariant victimRank == 2 ==> forall j :: 0 <= j < i ==> !Ranked(buffer[j], turnId, 1)
        invariant victimRank == 1 ==> IsOldest(buffer, turnId, 1, victim)
      {
        var entry := buffer[i];
        if entry.turnId == turnId {
          var rank := EvictionRank(entry.kind);
          RankIsClass(entry.kind, rank);
          if rank < victimRank {
            victim := i;
            victimRank := rank;
            if rank == 0 { return; }
          }
        }
        i := i + 1;
      }
    }

    method EnforceBounds(turnId: string)
      modifies this`buffer
      ensures buffer == Capped(Bounded(old(buffer), turnId, limits.perTurn), limits.total)
    {
      var count := 0;
      var i := 0;
      while i < |buffer|
        invariant 0 <= i <= |buffer| && buffer == old(buffer)
        invariant count + CountOf(buffer[i..], turnId) == CountOf(buffer, turnId)
      {
        if buffer[i].turnId == turnId {
          count := count + 1;
        }
        assert buffer[i..][1..] == buffer[i + 1..];
        i := i + 1;
      }
      while count > limits.perTurn
        invariant count == CountOf(buffer, turnId)
        invariant Bounded(buffer, turnId, limits.perTurn) == Bounded(old(buffer), turnId, limits.perTurn)
      {
        var victim := FindVictim(turnId);
        if victim < 0 {
          break; // only frames that are never dropped are left
        }
        EvictingOne(buffer, turnId, limits.perTurn, victim);
        CountsWithout(buffer, turnId, victim);
        buffer := buffer[..victim] + buffer[victim + 1..];
        count := count - 1;
      }
      NothingToEvict(buffer, turnId, limits.perTurn);
      ghost var bounded := buffer;
      while |buffer| > limits.total
        invariant |buffer| <= |bounded| && buffer == bounded[|bounded| - |buffer|..]
        invariant |buffer| < |bounded| ==> |buffer| >= limits.total
      {
        buffer := buffer[1..];
      }
    }

    method Enqueue(turnId: string, kind: FrameKind, payload: string)
      modifies this`buffer, this`nextSeq, this`sockets
      ensures State() == Enqueued(old(State()), limits, turnId, kind, payload)
    {
      var f := Frame(nextSeq, turnId, kind, payload);
      nextSeq := nextSeq + 1;
      buffer := buffer + [f];
      EnforceBounds(turnId);
      if socket.Some? && socket.value in sockets && sockets[socket.value].state.Open? {
        sockets := sockets[socket.value := sockets[socket.value].(wire := sockets[socket.value].wire + [Sent(f)])];
      }
    }

    method Acknowledge(n: nat)
      modifies this`buffer
      ensures State() == old(State()).(buffer := Acknowledged(old(buffer), n))
    {
      while |buffer| > 0 && buffer[0].number <= n
        invariant Acknowledged(buffer, n) == Acknowledged(old(buffer), n)
        decreases |buffer|
      {
        buffer := buffer[1..];
      }
    }

    method Start(s: SocketId)
      modifies this`stopped, this`socket, this`sockets
      ensures State() == if old(stopped) then Connected(old(State()).(stopped := false), s) else old(State())
    {
      if !stopped {
        return;
      }
      stopped := false;
      Connect(s);
    }

    method Stop()
      modifies this`stopped, this`socket, this`sockets
      ensures State() == Stopped(old(State()))
    {
      stopped := true;
      if socket.Some? && socket.value in sockets && !sockets[socket.value].state.Closed? {
        sockets := sockets[socket.value := sockets[socket.value].(state := Closing)];
      }
      socket := None;
    }

    method Connect(s: SocketId)
      modifies this`socket, this`sockets
      ensures State() == Connected(old(State()), s)
    {
      socket := Some(s);
      sockets := sockets[s := Socket(Connecting, [])];
    }

    method OnOpen(s: SocketId)
      requires s in sockets
      modifies this`sockets
      ensures State() == Opened(old(State()), s)
    {
      var wire := sockets[s].wire + [Hello];
      var i := 0;
      while i < |buffer|
        invariant 0 <= i <= |buffer|
        invariant wire == sockets[s].wire + [Hello] + Replay(buffer[..i])
      {
        wire := wire + [Sent(buffer[i])];
        assert Replay(buffer[..i + 1]) == Replay(buffer[..i]) + [Sent(buffer[i])];
        i := i + 1;
      }
      assert buffer[..i] == buffer;
      assert wire == sockets[s].wire + ([Hello] + Replay(buffer));
      sockets := sockets[s := Socket(Open, wire)];
      assert sockets == Opened(old(State()), s).sockets;
    }

    method OnClose(s: SocketId)
      requires s in sockets
      modifies this`socket, this`sockets
      ensures State() == Down(old(State()), s, Closed)
    {
      sockets := sockets[s := sockets[s].(state := Closed)];
      if socket == Some(s) {
        socket := None;
      }
    }
  }
}

/** agent-host's orchestration of resident containers: the handlers as functions on the two maps they
    update, and the `Host` object whose methods are proved to do exactly that.

    A reaction is what one stretch of handler code between two awaits does: the new maps, the frames
    it sends to the kernel and the one line it may write to a container. */
module AgentHost {
  import opened Wrappers

  type TurnId = string
  type ChatId = string
  type ContainerId = nat

  /** One resident container's identity: whose, and which of a person's two. */
  datatype ResidentKey = EntryAgent(principal: string) | AdminAgent(principal: string)

  datatype Attachment = Attachment(containerId: ContainerId, currentChat: Option<ChatId>)

  datatype Turn = Turn(
    turnId: TurnId,
    chat: ChatId,
    containerId: Option<ContainerId>,
    stopRequested: bool,
    pendingSwitch: Option<TurnId>,
    pendingPrompt: Option<string>)

  datatype EndStatus = Completed | Interrupted

  datatype Frame =
    | TurnAccepted(turnId: TurnId)
    | TurnRejected(turnId: TurnId)
    | TurnEnded(turnId: TurnId, status: EndStatus)
    | RuntimeEvent(turnId: TurnId, payload: string)
    | TurnUnknown(turnId: TurnId)

  /** A line on pi's stdin. The id of a switch command is its Turn's, under a prefix of its own. */
  datatype Command =
    | SwitchSession(turnId: TurnId, chat: ChatId)
    | Prompt(turnId: TurnId, text: string)
    | Abort

  /** A line of pi's stdout, as far as the host tells lines apart. */
  datatype Line =
    | SwitchResponse(id: Option<TurnId>, success: bool, cancelled: bool)
    | PromptResponse(turnId: TurnId, accepted: bool)
    | ExtensionError
    | PiEvent(payload: string)
    | AgentSettled
    | Unparsed

  datatype Write = Write(containerId: ContainerId, command: Command)

  /** `openIo`: the attached streams that neither side has closed. */
  datatype HostState = HostState(
    attachments: map<ResidentKey, Attachment>,
    activeTurns: map<ResidentKey, Turn>,
    openIo: set<ContainerId>)

  datatype Reaction = Reaction(host: HostState, frames: seq<Frame>, write: Option<Write>)

  /** A chat id that may become part of a session file name. */
  predicate SafeChatId(chat: ChatId) {
    chat != "" && forall c :: c in chat ==> 'A' <= c <= 'Z' || 'a' <= c <= 'z' || '0' <= c <= '9' || c == '_' || c == '-'
  }

  function WriteLine(h: HostState, c: ContainerId, command: Command): Option<Write> {
    if c in h.openIo then Some(Write(c, command)) else None
  }

  function DropTurn(h: HostState, key: ResidentKey): HostState {
    h.(activeTurns := h.activeTurns - {key})
  }

  function Quiet(h: HostState): Reaction {
    Reaction(h, [], None)
  }

  function OnContainerClosed(h: HostState, key: ResidentKey, c: ContainerId): Reaction {
    var g := if key in h.attachments && h.attachments[key].containerId == c then
               h.(attachments := h.attachments - {key})
             else h;
    if key !in h.activeTurns || h.activeTurns[key].containerId != Some(c) then Quiet(g)
    else Reaction(DropTurn(g, key), [TurnEnded(h.activeTurns[key].turnId, Interrupted)], None)
  }

  /** pi's answer to the switch the Turn of `key` is waiting for. */
  function OnSwitchResponse(h: HostState, key: ResidentKey, success: bool, cancelled: bool): Reaction
    requires key in h.activeTurns
  {
    var turn := h.activeTurns[key];
    var text := if turn.pendingPrompt.Some? then turn.pendingPrompt.value else "";
    if !success || cancelled then Reaction(DropTurn(h, key), [TurnRejected(turn.turnId)], None)
    else
      var g := if key in h.attachments then
                 h.(attachments := h.attachments[key := h.attachments[key].(currentChat := Some(turn.chat))])
               else h;
      if turn.stopRequested then Reaction(DropTurn(g, key), [TurnRejected(turn.turnId)], None)
      else
        Reaction(
        g.(activeTurns := g.activeTurns[key := turn.(pendingSwitch := None, pendingPrompt := None)]),
        [],
        if key in h.attachments then WriteLine(h, h.attachments[key].containerId, Prompt(turn.turnId, text)) else None)
  }

  /** A line from container `c`: only the Turn bound to `c` may be moved by it. */
  function OnLine(h: HostState, key: ResidentKey, c: ContainerId, line: Line): Reaction {
    if key !in h.activeTurns || h.activeTurns[key].containerId != Some(c) then Quiet(h)
    else
      var turn := h.activeTurns[key];
      match line
      case SwitchResponse(id, success, cancelled) =>
        if turn.pendingSwitch.Some? && (id == turn.pendingSwitch || id == None) then
          OnSwitchResponse(h, key, success, cancelled)
        else Quiet(h)
      case PromptResponse(id, accepted) =>
        if id != turn.turnId then Quiet(h)
        else if accepted then Reaction(h, [TurnAccepted(id)], None)
        else Reaction(DropTurn(h, key), [TurnRejected(id)], None)
      case AgentSettled =>
        Reaction(DropTurn(h, key), [TurnEnded(turn.turnId, if turn.stopRequested then Interrupted else Completed)], None)
      case PiEvent(payload) => Reaction(h, [RuntimeEvent(turn.turnId, payload)], None)
      case ExtensionError => Quiet(h)
      case Unparsed => Quiet(h)
  }

  /** `handleStartTurn` up to its first await: `true` says it goes on to spawn. */
  function OnStartTurn(h: HostState, key: ResidentKey, turnId: TurnId, chat: ChatId): (Reaction, bool) {
    if key in h.activeTurns then (Reaction(h, [TurnRejected(turnId)], None), false)
    else
      (Quiet(h.(activeTurns := h.activeTurns[key := Turn(turnId, chat, None, false, None, None)])), true)
  }

  /** The spawn or the attach failed: the reservation is released. */
  function OnStartFailed(h: HostState, key: ResidentKey, turnId: TurnId): Reaction {
    Reaction(DropTurn(h, key), [TurnRejected(turnId)], None)
  }

  /** The supervisor answered with container `c`: `true` says the cached attachment is that
      container's; otherwise any stale one is closed and `c` is to be attached. */
  function OnSpawned(h: HostState, key: ResidentKey, c: ContainerId): (HostState, bool) {
    if key !in h.attachments then (h, false)
    else if h.attachments[key].containerId == c then (h, true)
    else (h.(openIo := h.openIo - {h.attachments[key].containerId}), false)
  }

  function OnAttached(h: HostState, key: ResidentKey, c: ContainerId): HostState {
    h.(attachments := h.attachments[key := Attachment(c, None)], openIo := h.openIo + {c})
  }

  /** The rest of `handleStartTurn`, once its container is known: bind, then prompt or switch. */
  function OnBound(h: HostState, key: ResidentKey, text: string): Reaction
    requires key in h.activeTurns && key in h.attachments
  {
    var a := h.attachments[key];
    var turn := h.activeTurns[key].(containerId := Some(a.containerId));
    var g := h.(activeTurns := h.activeTurns[key := turn]);
    if a.currentChat == Some(turn.chat) then
      if turn.stopRequested then Reaction(DropTurn(g, key), [TurnRejected(turn.turnId)], None)
      else Reaction(g, [], WriteLine(h, a.containerId, Prompt(turn.turnId, text)))
    else if !SafeChatId(turn.chat) then Reaction(DropTurn(g, key), [TurnRejected(turn.turnId)], None)
    else
      Reaction(
      h.(activeTurns := h.activeTurns[key := turn.(pendingSwitch := Some(turn.turnId), pendingPrompt := Some(text))]),
      [],
      WriteLine(h, a.containerId, SwitchSession(turn.turnId, turn.chat)))
  }

  /** The resident whose active Turn a `stopTurn` names; a kernel that sent no kind means either. */
  function StopTarget(h: HostState, principal: string, admin: bool, turnId: TurnId): Option<ResidentKey> {
    var entry, agent := EntryAgent(principal), AdminAgent(principal);
    if !admin && entry in h.activeTurns && h.activeTurns[entry].turnId == turnId then Some(entry)
    else if agent in h.activeTurns && h.activeTurns[agent].turnId == turnId then Some(agent)
    else None
  }

  function OnStopTurn(h: HostState, principal: string, admin: bool, turnId: TurnId): Reaction {
    match StopTarget(h, principal, admin, turnId)
    case None => Reaction(h, [TurnUnknown(turnId)], None)
    case Some(key) =>
      var turn := h.activeTurns[key];
      var g := h.(activeTurns := h.activeTurns[key := turn.(stopRequested := true)]);
      if turn.pendingSwitch.Some? || key !in h.attachments then Quiet(g)
      else Reaction(g, [], WriteLine(h, h.attachments[key].containerId, Abort))
  }

  // ---------------------------------------------------------------------------------------------

  class Host {
    var attachments: map<ResidentKey, Attachment>
    var activeTurns: map<ResidentKey, Turn>
    var openIo: set<ContainerId>

    ghost function State(): HostState
      reads this
    {
      HostState(attachments, activeTurns, openIo)
    }

    constructor ()
      ensures State() == HostState(map[], map[], {})
    {
      attachments, activeTurns, openIo := map[], map[], {};
    }

    method HandleContainerClosed(key: ResidentKey, c: ContainerId) returns (frames: seq<Frame>)
      modifies this
      ensures Reaction(State(), frames, None) == OnContainerClosed(old(State()), key, c)
    {
      frames := [];
      if key in attachments && attachments[key].containerId == c {
        attachments := attachments - {key};
      }
      if key !in activeTurns { return; }
      var turn := activeTurns[key];
      if turn.containerId != Some(c) { return; }
      activeTurns := activeTurns - {key};
      frames := [TurnEnded(turn.turnId, Interrupted)];
    }

    method HandleSwitchResponse(key: ResidentKey, success: bool, cancelled: bool)
      returns (frames: seq<Frame>, write: Option<Write>)
      requires key in activeTurns
      modifies this
      ensures Reaction(State(), frames, write) == OnSwitchResponse(old(State()), key, success, cancelled)
    {
      frames, write := [], None;
      var turn := activeTurns[key];
      var text := if turn.pendingPrompt.Some? then turn.pendingPrompt.value else "";
      activeTurns := activeTurns[key := turn.(pendingSwitch := None, pendingPrompt := None)];
      if !success || cancelled {
        activeTurns := activeTurns - {key};
        frames := [TurnRejected(turn.turnId)];
        assert activeTurns == old(activeTurns) - {key};
        return;
      }
      if key in attachments {
        attachments := attachments[key := attachments[key].(currentChat := Some(turn.chat))];
      }
      if turn.stopRequested {
        activeTurns := activeTurns - {key};
        frames := [TurnRejected(turn.turnId)];
        assert activeTurns == old(activeTurns) - {key};
        return;
      }
      if key in attachments && attachments[key].containerId in openIo {
        write := Some(Write(attachments[key].containerId, Prompt(turn.turnId, text)));
      }
    }

    method HandleLine(key: ResidentKey, c: ContainerId, line: Line) returns (frames: seq<Frame>, write: Option<Write>)
      modifies this
      ensures Reaction(State(), frames, write) == OnLine(old(State()), key, c, line)
    {
      frames, write := [], None;
      if key !in activeTurns { return; }
      var turn := activeTurns[key];
      if turn.containerId != Some(c) { return; }
      match line
      case SwitchResponse(id, success, cancelled) =>
        if turn.pendingSwitch.Some? && (id == turn.pendingSwitch || id == None) {
          frames, write := HandleSwitchResponse(key, success, cancelled);
        }
      case PromptResponse(id, accepted) =>
        if id == turn.turnId {
          if accepted {
            frames := [TurnAccepted(turn.turnId)];
          } else {
            activeTurns := activeTurns - {key};
            frames := [TurnRejected(turn.turnId)];
          }
        }
      case AgentSettled =>
        activeTurns := activeTurns - {key};
        frames := [TurnEnded(turn.turnId, if turn.stopRequested then Interrupted else Completed)];
      case PiEvent(payload) =>
        frames := [RuntimeEvent(turn.turnId, payload)];
      case ExtensionError =>
      case Unparsed =>
    }

    /** `spawning`: the handler goes on to await the supervisor. */
    method HandleStartTurn(key: ResidentKey, turnId: TurnId, chat: ChatId) returns (frames: seq<Frame>, spawning: bool)
      modifies this`activeTurns
      ensures (Reaction(State(), frames, None), spawning) == OnStartTurn(old(State()), key, turnId, chat)
    {
      if key in activeTurns {
        return [TurnRejected(turnId)], false;
      }
      activeTurns := activeTurns[key := Turn(turnId, chat, None, false, None, None)];
      return [], true;
    }

    method StartFailed(key: ResidentKey, turnId: TurnId) returns (frames: seq<Frame>)
      modifies this`activeTurns
      ensures Reaction(State(), frames, None) == OnStartFailed(old(State()), key, turnId)
    {
      activeTurns := activeTurns - {key};
      frames := [TurnRejected(turnId)];
    }

    method Spawned(key: ResidentKey, c: ContainerId) returns (cached: bool)
      modifies this`openIo
      ensures (State(), cached) == OnSpawned(old(State()), key, c)
    {
      if key !in attachments { return false; }
      if attachments[key].containerId == c { return true; }
      openIo := openIo - {attachments[key].containerId};
      return false;
    }

    method Attached(key: ResidentKey, c: ContainerId)
      modifies this`attachments, this`openIo
      ensures State() == OnAttached(old(State()), key, c)
    {
      openIo := openIo + {c};
      attachments := attachments[key := Attachment(c, None)];
    }

    method Bound(key: ResidentKey, text: string) returns (frames: seq<Frame>, write: Option<Write>)
      requires key in activeTurns && key in attachments
      modifies this`activeTurns
      ensures Reaction(State(), frames, write) == OnBound(old(State()), key, text)
    {
      frames, write := [], None;
      var record := attachments[key];
      var turn := activeTurns[key].(containerId := Some(record.containerId));
      activeTurns := activeTurns[key := turn];
      if record.currentChat == Some(turn.chat) {
        if turn.stopRequested {
          activeTurns := activeTurns - {key};
          frames := [TurnRejected(turn.turnId)];
        } else if record.containerId in openIo {
          write := Some(Write(record.containerId, Prompt(turn.turnId, text)));
        }
        return;
      }
      if !SafeChatId(turn.chat) {
        activeTurns := activeTurns - {key};
        frames := [TurnRejected(turn.turnId)];
        return;
      }
      activeTurns := activeTurns[key := turn.(pendingSwitch := Some(turn.turnId), pendingPrompt := Some(text))];
      assert activeTurns == old(activeTurns)[key := turn.(pendingSwitch := Some(turn.turnId), pendingPrompt := Some(text))];
      if record.containerId in openIo {
        write := Some(Write(record.containerId, SwitchSession(turn.turnId, turn.chat)));
      }
    }

    method HandleStopTurn(principal: string, admin: bool, turnId: TurnId) returns (frames: seq<Frame>, write: Option<Write>)
      modifies this`activeTurns
      ensures Reaction(State(), frames, write) == OnStopTurn(old(State()), principal, admin, turnId)
    {
      frames, write := [], None;
      var target := StopTarget(HostState(attachments, activeTurns, openIo), principal, admin, turnId);
      if target.None? {
        frames := [TurnUnknown(turnId)];
        return;
      }
      var key := target.value;
      var turn := activeTurns[key];
      activeTurns := activeTurns[key := turn.(stopRequested := true)];
      if turn.pendingSwitch.Some? { return; }
      if key in attachments && attachments[key].containerId in openIo {
        write := Some(Write(attachments[key].containerId, Abort));
      }
    }
  }
}

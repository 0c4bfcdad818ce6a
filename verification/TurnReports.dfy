/** What agent-host tells the kernel and writes to its containers, event by event, said on the world
    alone: the frames that are added, the one command a container receives while no other container
    receives anything, and the Turns and attachments that are left. */
module TurnReports {
  import opened Wrappers
  import opened AgentHost
  import opened TurnWorld
  import opened TurnProperties

  function InboxOf(w: World, c: ContainerId): seq<Command> {
    if c in w.containers then w.containers[c].inbox else []
  }

  ghost predicate NothingWritten(w: World, v: World) {
    forall d {:trigger InboxOf(v, d)} :: InboxOf(v, d) == InboxOf(w, d)
  }

  /** `command` is written to `c`, once, and nothing to any other container. */
  ghost predicate OnlyWrites(w: World, v: World, c: ContainerId, command: Command) {
    && InboxOf(v, c) == InboxOf(w, c) + [command]
    && (forall d {:trigger InboxOf(v, d)} :: d != c ==> InboxOf(v, d) == InboxOf(w, d))
  }

  predicate Says(w: World, v: World, frames: seq<Frame>) {
    v.frames == w.frames + frames
  }

  /** The Turn of `key` is gone, the others are as they were. */
  predicate TurnGone(w: World, v: World, key: ResidentKey) {
    v.host.activeTurns == w.host.activeTurns - {key}
  }

  predicate TurnBecomes(w: World, v: World, key: ResidentKey, t: Turn) {
    v.host.activeTurns == w.host.activeTurns[key := t]
  }

  /** Only what is written to containers and said to the kernel may differ. */
  predicate SameHost(w: World, v: World) {
    v.host == w.host && v.starts == w.starts && v.commands == w.commands && v.attached == w.attached
  }

  predicate NothingButTurns(w: World, v: World) {
    && v.host.attachments == w.host.attachments && v.host.openIo == w.host.openIo
    && v.attached == w.attached && v.commands == w.commands
  }

  // ---------------------------------------------------------------------------------------------
  // Stops
  // ---------------------------------------------------------------------------------------------

  /** The residents a `stopTurn` may mean: the admin agent if it says so, either one otherwise. */
  predicate MayMean(key: ResidentKey, principal: string, admin: bool) {
    key == AdminAgent(principal) || (!admin && key == EntryAgent(principal))
  }

  /** The stop of a running Turn: pi is told to abort in the container the Turn runs in, once, and
      nobody else is told anything; while pi has not confirmed the switch to the Turn's chat there is
      nothing to abort; before the Turn has a container, the open cached one is told, if there is one.
      In every case the Turn remembers the stop. */
  lemma StopAborts(w: World, key: ResidentKey, principal: string, admin: bool)
    requires Inv(w) && key in w.host.activeTurns && MayMean(key, principal, admin)
    ensures var t := w.host.activeTurns[key];
            var v := Step(w, StopTurn(principal, admin, t.turnId));
            && Says(w, v, []) && NothingButTurns(w, v) && v.starts == w.starts
            && TurnBecomes(w, v, key, t.(stopRequested := true))
            && (t.pendingSwitch.Some? ==> NothingWritten(w, v))
            && (t.pendingSwitch.None? && t.containerId.Some? ==> OnlyWrites(w, v, t.containerId.value, Abort))
            && (t.containerId.None? && key in w.host.attachments && w.host.attachments[key].containerId in w.host.openIo ==>
                  OnlyWrites(w, v, w.host.attachments[key].containerId, Abort))
            && (t.containerId.None? && (key !in w.host.attachments || w.host.attachments[key].containerId !in w.host.openIo) ==>
                  NothingWritten(w, v))
  {
    var t := w.host.activeTurns[key];
    assert TurnOk(w, key) && TurnOk(w, EntryAgent(principal)) && TurnOk(w, AdminAgent(principal));
    assert AttachmentOk(w, key);
    if t.containerId.Some? { assert ContainerOk(w, t.containerId.value); }
  }

  /** A stop of a Turn that is not active is answered "unknown" and changes nothing else. */
  lemma StopOfNoTurnIsUnknown(w: World, principal: string, admin: bool, turnId: TurnId)
    requires forall k :: MayMean(k, principal, admin) ==> !Active(w, k, turnId)
    ensures Step(w, StopTurn(principal, admin, turnId)) == w.(frames := w.frames + [TurnUnknown(turnId)])
  {
    assert MayMean(AdminAgent(principal), principal, admin);
    assert !Active(w, AdminAgent(principal), turnId);
    if !admin {
      assert MayMean(EntryAgent(principal), principal, admin);
      assert !Active(w, EntryAgent(principal), turnId);
    }
  }

  // ---------------------------------------------------------------------------------------------
  // Starts
  // ---------------------------------------------------------------------------------------------

  /** A Turn for a resident that already has one is rejected, and nothing else happens; a free resident
      is reserved before the first await. */
  lemma StartReservesOrRejects(w: World, key: ResidentKey, turnId: TurnId, chat: ChatId, text: string)
    requires turnId !in w.commands
    ensures var v := Step(w, StartTurn(key, turnId, chat, text));
            if key in w.host.activeTurns then
              v == w.(commands := w.commands[turnId := StartTurnCommand(key, chat, text)],
              frames := w.frames + [TurnRejected(turnId)])
            else
              && Says(w, v, []) && v.containers == w.containers && v.host.attachments == w.host.attachments
              && v.host.openIo == w.host.openIo
              && TurnBecomes(w, v, key, Turn(turnId, chat, None, false, None, None))
              && v.starts == w.starts[turnId := Start(key, text, None)]
  {
  }

  lemma FailedStartIsRejected(w: World, turnId: TurnId)
    requires Inv(w) && turnId in w.starts
    ensures var v := Step(w, StartFails(turnId));
            && Says(w, v, [TurnRejected(turnId)]) && NothingWritten(w, v) && NothingButTurns(w, v)
            && TurnGone(w, v, w.starts[turnId].key) && v.starts == w.starts - {turnId}
  {
    assert StartOk(w, turnId);
  }

  /** The Turn gets its container `c`, in which `loaded` is the chat the host knows to be loaded: a Turn
      of that chat is prompted, unless it was stopped; any other chat is switched to first, if its id may
      name a session file. */
  ghost predicate BindsTo(w: World, v: World, turnId: TurnId, c: ContainerId, loaded: Option<ChatId>) {
    turnId in w.starts && w.starts[turnId].key in w.host.activeTurns &&
    var s := w.starts[turnId];
    var t := w.host.activeTurns[s.key].(containerId := Some(c));
    && v.starts == w.starts - {turnId}
    && (if loaded == Some(t.chat) then
          if t.stopRequested then
            Says(w, v, [TurnRejected(turnId)]) && NothingWritten(w, v) && TurnGone(w, v, s.key)
          else
            Says(w, v, []) && OnlyWrites(w, v, c, Prompt(turnId, s.text)) && TurnBecomes(w, v, s.key, t)
        else if !SafeChatId(t.chat) then
          Says(w, v, [TurnRejected(turnId)]) && NothingWritten(w, v) && TurnGone(w, v, s.key)
        else
          && Says(w, v, []) && OnlyWrites(w, v, c, SwitchSession(turnId, t.chat))
          && TurnBecomes(w, v, s.key, t.(pendingSwitch := Some(turnId), pendingPrompt := Some(s.text))))
  }

  /** The supervisor names the container whose stream is already attached. */
  lemma CachedContainerBinds(w: World, turnId: TurnId, c: ContainerId)
    requires Inv(w) && turnId in w.starts && w.starts[turnId].spawned.None?
    requires Spawnable(w, w.starts[turnId].key, c)
    requires w.starts[turnId].key in w.host.attachments
    requires w.host.attachments[w.starts[turnId].key].containerId == c
    ensures var v := Step(w, SpawnReturns(turnId, c));
            && BindsTo(w, v, turnId, c, w.host.attachments[w.starts[turnId].key].currentChat)
            && NothingButTurns(w, v)
  {
    var key := w.starts[turnId].key;
    assert StartOk(w, turnId) && AttachmentOk(w, key) && TurnOk(w, key) && ContainerOk(w, c);
  }

  /** The supervisor names another container: the stream to the one it replaces is closed, and the
      Turn waits for the attach. */
  lemma OtherContainerIsAttachedFirst(w: World, turnId: TurnId, c: ContainerId)
    requires Inv(w) && turnId in w.starts && w.starts[turnId].spawned.None?
    requires Spawnable(w, w.starts[turnId].key, c)
    requires w.starts[turnId].key in w.host.attachments ==> w.host.attachments[w.starts[turnId].key].containerId != c
    ensures var v := Step(w, SpawnReturns(turnId, c));
            var s := w.starts[turnId];
            && Says(w, v, []) && NothingWritten(w, v) && v.host.activeTurns == w.host.activeTurns
            && v.host.attachments == w.host.attachments
            && v.host.openIo == (if s.key in w.host.attachments then w.host.openIo - {w.host.attachments[s.key].containerId}
                                 else w.host.openIo)
            && v.starts == w.starts[turnId := s.(spawned := Some(c))] && v.commands == w.commands
  {
    assert StartOk(w, turnId);
  }

  /** A container attached only now is one whose loaded chat nobody knows. */
  lemma AttachedContainerBinds(w: World, turnId: TurnId)
    requires Inv(w) && turnId in w.starts && w.starts[turnId].spawned.Some?
    ensures var v := Step(w, AttachReturns(turnId));
            var key, c := w.starts[turnId].key, w.starts[turnId].spawned.value;
            && BindsTo(w, v, turnId, c, None) && v.commands == w.commands
            && v.host.attachments == w.host.attachments[key := Attachment(c, None)]
            && v.host.openIo == w.host.openIo + {c} && v.attached == w.attached + {c}
  {
    assert StartOk(w, turnId) && TurnOk(w, w.starts[turnId].key);
  }

  // ---------------------------------------------------------------------------------------------
  // Lines
  // ---------------------------------------------------------------------------------------------

  predicate LineWaits(w: World, c: ContainerId) {
    c in w.containers && w.containers[c].outbox != []
  }

  /** A line changes nothing but that it is taken from the stream. */
  ghost predicate LineIgnored(w: World, v: World, c: ContainerId) {
    c in w.containers && c in v.containers && v == w.(containers := w.containers[c := w.containers[c].(outbox := v.containers[c].outbox)])
  }

  /** pi's answer to the switch the Turn waits for. */
  ghost predicate SwitchAnswered(w: World, v: World, key: ResidentKey, c: ContainerId, confirmed: bool) {
    key in w.host.activeTurns && key in w.host.attachments && w.host.activeTurns[key].turnId in w.commands &&
    var t := w.host.activeTurns[key];
    var a := w.host.attachments[key];
    && v.host.openIo == w.host.openIo
    && v.host.attachments == (if confirmed then w.host.attachments[key := a.(currentChat := Some(t.chat))]
                              else w.host.attachments)
    && (if confirmed && !t.stopRequested then
          && Says(w, v, []) && OnlyWrites(w, v, c, Prompt(t.turnId, w.commands[t.turnId].text))
          && TurnBecomes(w, v, key, t.(pendingSwitch := None, pendingPrompt := None))
        else
          Says(w, v, [TurnRejected(t.turnId)]) && NothingWritten(w, v) && TurnGone(w, v, key))
  }

  /** What a line of the container means for the Turn bound to it. */
  ghost predicate LineMeans(w: World, v: World, key: ResidentKey, c: ContainerId, line: Line) {
    key in w.host.activeTurns &&
    var t := w.host.activeTurns[key];
    match line
    case PiEvent(payload) =>
      Says(w, v, [RuntimeEvent(t.turnId, payload)]) && NothingWritten(w, v) && SameHost(w, v)
    case AgentSettled =>
      && Says(w, v, [TurnEnded(t.turnId, if t.stopRequested then Interrupted else Completed)])
      && NothingWritten(w, v) && NothingButTurns(w, v) && TurnGone(w, v, key)
    case PromptResponse(id, accepted) =>
      if id != t.turnId then LineIgnored(w, v, c)
      else if accepted then Says(w, v, [TurnAccepted(id)]) && NothingWritten(w, v) && SameHost(w, v)
      else Says(w, v, [TurnRejected(id)]) && NothingWritten(w, v) && NothingButTurns(w, v) && TurnGone(w, v, key)
    case SwitchResponse(id, success, cancelled) =>
      if t.pendingSwitch.Some? && (id == None || id == Some(t.turnId)) then
        SwitchAnswered(w, v, key, c, success && !cancelled)
      else LineIgnored(w, v, c)
    case ExtensionError => LineIgnored(w, v, c)
    case Unparsed => LineIgnored(w, v, c)
  }

  /** A line of the container a Turn is bound to is taken off the stream and means what `LineMeans`
      says. */
  lemma BoundTurnReadsItsLines(w: World, key: ResidentKey, c: ContainerId)
    requires Inv(w) && BoundTo(w, key, c) && LineWaits(w, c)
    ensures var v := Step(w, LineArrives(c));
            && LineMeans(w, v, key, c, w.containers[c].outbox[0])
            && c in v.containers && v.containers[c].outbox == w.containers[c].outbox[1..]
  {
    assert TurnOk(w, key) && ContainerOk(w, c) && AttachmentOk(w, key);
    var t := w.host.activeTurns[key];
    assert w.containers[c].owner == key && c in w.attached;
    assert t.pendingSwitch.Some? ==> t.pendingSwitch == Some(t.turnId) && t.pendingPrompt == Some(w.commands[t.turnId].text);
  }

  /** A line of a container no Turn is bound to changes nothing. */
  lemma UnboundLinesAreIgnored(w: World, c: ContainerId)
    requires LineWaits(w, c) && !BoundTo(w, w.containers[c].owner, c)
    ensures LineIgnored(w, Step(w, LineArrives(c)), c)
  {
  }

  /** The close of a stream ends the Turn bound to it, and only that, and forgets the attachment. */
  lemma CloseInterrupts(w: World, c: ContainerId)
    requires Inv(w) && c in w.host.openIo
    ensures c in w.containers
    ensures var v := Step(w, StreamCloses(c));
            var key := w.containers[c].owner;
            && NothingWritten(w, v) && v.starts == w.starts
            && v.host.openIo == w.host.openIo - {c} && v.host.attachments == w.host.attachments - {key}
            && (if BoundTo(w, key, c) then
                  Says(w, v, [TurnEnded(w.host.activeTurns[key].turnId, Interrupted)]) && TurnGone(w, v, key)
                else Says(w, v, []) && v.host.activeTurns == w.host.activeTurns)
  {
    assert ContainerOk(w, c);
  }

  // ---------------------------------------------------------------------------------------------
  // A stopped Turn is never reported as completed
  // ---------------------------------------------------------------------------------------------

  /** Whoever runs `turnId` knows that it was stopped. */
  ghost predicate Stopped(w: World, turnId: TurnId) {
    turnId in w.commands && forall k :: Active(w, k, turnId) ==> w.host.activeTurns[k].stopRequested
  }

  ghost predicate NeverCompleted(before: seq<Frame>, after: seq<Frame>, turnId: TurnId) {
    before <= after && TurnEnded(turnId, Completed) !in after[|before|..]
  }

  lemma StoppedStep(w: World, e: Event, turnId: TurnId)
    requires Inv(w) && Stopped(w, turnId)
    ensures Stopped(Step(w, e), turnId)
    ensures NeverCompleted(w.frames, Step(w, e).frames, turnId)
  {
    if e.LineArrives? {
      if LineWaits(w, e.container) { StoppedLine(w, e.container, turnId); }
    } else if e.SpawnReturns? || e.AttachReturns? {
      StoppedBinding(w, e, turnId);
    } else {
      StoppedAnyway(w, e, turnId);
    }
  }

  lemma StoppedAnyway(w: World, e: Event, turnId: TurnId)
    requires Stopped(w, turnId) && !e.LineArrives? && !e.SpawnReturns? && !e.AttachReturns?
    ensures Stopped(Step(w, e), turnId)
    ensures NeverCompleted(w.frames, Step(w, e).frames, turnId)
  {
    if e.StopTurn? || e.StreamCloses? {
      StoppedByStopOrClose(w, e, turnId);
    } else {
      var v := Step(w, e);
      forall k | Active(v, k, turnId) ensures v.host.activeTurns[k].stopRequested {
        assert Active(w, k, turnId);
      }
    }
  }

  lemma StoppedByStopOrClose(w: World, e: Event, turnId: TurnId)
    requires Stopped(w, turnId) && (e.StopTurn? || e.StreamCloses?)
    ensures Stopped(Step(w, e), turnId)
    ensures NeverCompleted(w.frames, Step(w, e).frames, turnId)
  {
    var v := Step(w, e);
    forall k | Active(v, k, turnId) ensures v.host.activeTurns[k].stopRequested {
      assert Active(w, k, turnId);
    }
  }

  lemma StoppedLine(w: World, c: ContainerId, turnId: TurnId)
    requires Inv(w) && Stopped(w, turnId) && LineWaits(w, c)
    ensures Stopped(Step(w, LineArrives(c)), turnId)
    ensures NeverCompleted(w.frames, Step(w, LineArrives(c)).frames, turnId)
  {
    var key, v := w.containers[c].owner, Step(w, LineArrives(c));
    if BoundTo(w, key, c) {
      BoundTurnReadsItsLines(w, key, c);
      assert w.host.activeTurns[key].turnId == turnId ==> Active(w, key, turnId);
      forall k | Active(v, k, turnId) ensures v.host.activeTurns[k].stopRequested {
        assert Active(w, k, turnId);
      }
    } else {
      UnboundLinesAreIgnored(w, c);
      forall k | Active(v, k, turnId) ensures v.host.activeTurns[k].stopRequested { assert Active(w, k, turnId); }
    }
  }

  lemma StoppedBinding(w: World, e: Event, turnId: TurnId)
    requires Inv(w) && Stopped(w, turnId) && (e.SpawnReturns? || e.AttachReturns?)
    ensures Stopped(Step(w, e), turnId)
    ensures NeverCompleted(w.frames, Step(w, e).frames, turnId)
  {
    var v := Step(w, e);
    if v != w {
      assert StartOk(w, e.turnId);
      var key := w.starts[e.turnId].key;
      assert w.host.activeTurns[key].turnId == turnId ==> Active(w, key, turnId);
      if e.AttachReturns? {
        AttachedContainerBinds(w, e.turnId);
        StoppedBound(w, v, e.turnId, w.starts[e.turnId].spawned.value, None, turnId);
      } else if key in w.host.attachments && w.host.attachments[key].containerId == e.container {
        CachedContainerBinds(w, e.turnId, e.container);
        StoppedBound(w, v, e.turnId, e.container, w.host.attachments[key].currentChat, turnId);
      } else {
        OtherContainerIsAttachedFirst(w, e.turnId, e.container);
        forall k | Active(v, k, turnId) ensures v.host.activeTurns[k].stopRequested { assert Active(w, k, turnId); }
      }
    }
  }

  lemma StoppedBound(w: World, v: World, bound: TurnId, c: ContainerId, loaded: Option<ChatId>, turnId: TurnId)
    requires BindsTo(w, v, bound, c, loaded) && Stopped(w, turnId) && v.commands == w.commands
    ensures Stopped(v, turnId) && NeverCompleted(w.frames, v.frames, turnId)
  {
    forall k | Active(v, k, turnId) ensures v.host.activeTurns[k].stopRequested { assert Active(w, k, turnId); }
  }

  lemma {:induction false} StoppedRun(w: World, events: seq<Event>, turnId: TurnId)
    requires Inv(w) && Stopped(w, turnId)
    ensures Stopped(Run(w, events), turnId) && NeverCompleted(w.frames, Run(w, events).frames, turnId)
    decreases |events|
  {
    if events != [] {
      StoppedStep(w, events[0], turnId);
      StepKeepsInv(w, events[0]);
      StoppedRun(Step(w, events[0]), events[1..], turnId);
    }
  }

  /** Once a stop found its Turn, whatever happens later, that Turn is never reported as completed. */
  lemma StopIsNeverCompleted(w: World, key: ResidentKey, principal: string, admin: bool, after: seq<Event>)
    requires Inv(w) && key in w.host.activeTurns && MayMean(key, principal, admin)
    ensures var turnId := w.host.activeTurns[key].turnId;
            var v := Step(w, StopTurn(principal, admin, turnId));
            NeverCompleted(w.frames, Run(v, after).frames, turnId)
  {
    var turnId := w.host.activeTurns[key].turnId;
    var v := Step(w, StopTurn(principal, admin, turnId));
    StopAborts(w, key, principal, admin);
    assert TurnOk(w, key);
    forall k | Active(v, k, turnId) ensures v.host.activeTurns[k].stopRequested {
      assert k != key ==> Active(w, k, turnId) && TurnOk(w, k);
    }
    StepKeepsInv(w, StopTurn(principal, admin, turnId));
    StoppedRun(v, after, turnId);
  }

  // ---------------------------------------------------------------------------------------------
  // Chats that may be switched to
  // ---------------------------------------------------------------------------------------------

  /** The code of an ASCII digit, letter, hyphen or underscore. */
  predicate WordCode(n: int) {
    0x30 <= n <= 0x39 || 0x41 <= n <= 0x5a || 0x61 <= n <= 0x7a || n == 0x2d || n == 0x5f
  }

  /** A chat id may become part of a file name exactly if there is something in it, all of it such
      characters: no separator, no dot, no blank and no control character. */
  lemma SafeIdsAreWords(chat: ChatId)
    ensures SafeChatId(chat) <==> |chat| > 0 && forall i :: 0 <= i < |chat| ==> WordCode(chat[i] as int)
    ensures SafeChatId(chat) ==> forall c :: c in chat ==> c != '/' && c != '.' && c != '\\' && c > ' '
  {
    assert SafeChatId(chat) ==> forall i :: 0 <= i < |chat| ==> chat[i] in chat;
  }
}

/** Turns over whole runs: the host's handlers, a supervisor that may replace a container during a
    spawn, the containers' streams, and in each container one pi process that answers its commands in
    order. Streams may end while their container lives on, and agent-host itself may restart. Runs are
    arbitrary sequences of steps.

    What the world is taken to do: startTurn ids are distinct; the supervisor never answers a spawn with
    a container the host was already told is replaced; pi echoes the id of a command in its answer,
    answers each command once, leaves its session alone unless it confirms a switch, and reports
    `agent_settled` only for a prompt it accepted. */
module TurnWorld {
  import opened Wrappers
  import opened AgentHost

  datatype Container = Container(
    owner: ResidentKey,
    alive: bool,
    session: Option<ChatId>,
    running: bool,
    inbox: seq<Command>,
    outbox: seq<Line>)

  /** A `handleStartTurn` between its awaits: waiting for the supervisor, or for the attach of the
      container it answered with. */
  datatype Start = Start(key: ResidentKey, text: string, spawned: Option<ContainerId>)

  datatype StartTurnCommand = StartTurnCommand(key: ResidentKey, chat: ChatId, text: string)

  /** pi took up the prompt of a Turn while `session` was loaded. */
  datatype Handled = Handled(turnId: TurnId, text: string, session: Option<ChatId>)

  /** `commands`, `sent`, `written` and `handled` only record what happened: the Turns started, the ones a
      command was written for, the ones a prompt was written for, and what pi took up. */
  datatype World = World(
    host: HostState,
    starts: map<TurnId, Start>,
    containers: map<ContainerId, Container>,
    attached: set<ContainerId>,
    replaced: set<ContainerId>,
    commands: map<TurnId, StartTurnCommand>,
    frames: seq<Frame>,
    sent: set<TurnId>,
    written: set<TurnId>,
    handled: seq<Handled>)

  datatype Event =
    | StartTurn(key: ResidentKey, turnId: TurnId, chat: ChatId, text: string)
    | SpawnReturns(turnId: TurnId, container: ContainerId)
    | StartFails(turnId: TurnId)
    | AttachReturns(turnId: TurnId)
    | StopTurn(principal: string, admin: bool, turnId: TurnId)
    | PiHandles(container: ContainerId, ok: bool, cancelled: bool)
    | PiEmits(container: ContainerId, line: Line)
    | LineArrives(container: ContainerId)
    | Dies(container: ContainerId)
    | StreamCloses(container: ContainerId) // the container may well live on
    | HostRestarts
    | OutputLost(container: ContainerId, from: nat, to: nat)
    | InputLost(container: ContainerId, from: nat, to: nat)

  function Written(w: World, write: Option<Write>): World {
    if write.None? || write.value.containerId !in w.containers then w
    else
      var x := w.containers[write.value.containerId];
      w.(containers := w.containers[write.value.containerId := x.(inbox := x.inbox + [write.value.command])],
      sent := if write.value.command.Abort? then w.sent else w.sent + {write.value.command.turnId},
      written := if write.value.command.Prompt? then w.written + {write.value.command.turnId} else w.written)
  }

  function React(w: World, r: Reaction): World {
    Written(w.(host := r.host, frames := w.frames + r.frames), r.write)
  }

  /** A container the supervisor may answer a spawn for `key` with: a new one, or a live one of that
      resident that was not replaced. */
  predicate Spawnable(w: World, key: ResidentKey, c: ContainerId) {
    c in w.containers ==> w.containers[c].owner == key && w.containers[c].alive && c !in w.replaced
  }

  function FreshContainer(key: ResidentKey): Container {
    Container(key, true, None, false, [], [])
  }

  function Spawned(w: World, turnId: TurnId, c: ContainerId): World
    requires turnId in w.starts
  {
    var s := w.starts[turnId];
    var v := if c in w.containers then w else w.(containers := w.containers[c := FreshContainer(s.key)]);
    var (h, cached) := OnSpawned(w.host, s.key, c);
    if cached then
      if s.key in h.activeTurns && s.key in h.attachments then
        React(v.(starts := v.starts - {turnId}), OnBound(h, s.key, s.text))
      else w
    else
      v.(host := h, starts := v.starts[turnId := s.(spawned := Some(c))],
      replaced := if s.key in h.attachments then v.replaced + {h.attachments[s.key].containerId} else v.replaced)
  }

  function Attached(w: World, turnId: TurnId): World
    requires turnId in w.starts && w.starts[turnId].spawned.Some?
  {
    var s := w.starts[turnId];
    var h := OnAttached(w.host, s.key, s.spawned.value);
    if s.key in h.activeTurns then
      React(w.(starts := w.starts - {turnId}, attached := w.attached + {s.spawned.value}), OnBound(h, s.key, s.text))
    else w
  }

  /** pi takes its next command: `ok` and `cancelled` are how it answers. */
  function AfterCommand(x: Container, ok: bool, cancelled: bool): Container
    requires x.inbox != []
  {
    var rest := x.inbox[1..];
    match x.inbox[0]
    case Abort => x.(inbox := rest)
    case SwitchSession(turnId, chat) =>
      x.(inbox := rest,
      session := if ok && !cancelled then Some(chat) else x.session,
      outbox := x.outbox + [SwitchResponse(Some(turnId), ok, cancelled)])
    case Prompt(turnId, _) =>
      x.(inbox := rest,
      running := x.running || ok,
      outbox := x.outbox + [PromptResponse(turnId, ok && !x.running)])
  }

  function PiHandled(w: World, c: ContainerId, ok: bool, cancelled: bool): World
    requires c in w.containers && w.containers[c].inbox != []
  {
    var x := w.containers[c];
    w.(containers := w.containers[c := AfterCommand(x, ok, cancelled)],
    handled := if x.inbox[0].Prompt? then w.handled + [Handled(x.inbox[0].turnId, x.inbox[0].text, x.session)] else w.handled)
  }

  predicate Noise(line: Line) {
    line.PiEvent? || line.ExtensionError? || line.Unparsed?
  }

  /** One step. An event that cannot happen in `w` leaves it unchanged. */
  function Step(w: World, e: Event): World {
    match e
    case StartTurn(key, turnId, chat, text) =>
      if turnId in w.commands then w
      else
        var (r, spawning) := OnStartTurn(w.host, key, turnId, chat);
        var v := React(w.(commands := w.commands[turnId := StartTurnCommand(key, chat, text)]), r);
        if spawning then v.(starts := v.starts[turnId := Start(key, text, None)]) else v
    case SpawnReturns(turnId, c) =>
      if turnId in w.starts && w.starts[turnId].spawned.None? && Spawnable(w, w.starts[turnId].key, c) then
        Spawned(w, turnId, c)
      else w
    case StartFails(turnId) =>
      if turnId in w.starts then
        React(w.(starts := w.starts - {turnId}), OnStartFailed(w.host, w.starts[turnId].key, turnId))
      else w
    case AttachReturns(turnId) =>
      if turnId in w.starts && w.starts[turnId].spawned.Some? then Attached(w, turnId) else w
    case StopTurn(principal, admin, turnId) =>
      React(w, OnStopTurn(w.host, principal, admin, turnId))
    case PiHandles(c, ok, cancelled) =>
      if c in w.containers && w.containers[c].alive && w.containers[c].inbox != [] then PiHandled(w, c, ok, cancelled) else w
    case PiEmits(c, line) =>
      if c in w.containers && w.containers[c].alive
         && (Noise(line) || (line.AgentSettled? && w.containers[c].running))
      then
        var x := w.containers[c];
        w.(containers := w.containers[c := x.(
        outbox := x.outbox + [line],
        running := if line.AgentSettled? then false else x.running)])
      else w
    case LineArrives(c) =>
      if c in w.attached && c in w.containers && w.containers[c].outbox != [] then
        var x := w.containers[c];
        React(w.(containers := w.containers[c := x.(outbox := x.outbox[1..])]),
              OnLine(w.host, x.owner, c, x.outbox[0]))
      else w
    case Dies(c) =>
      if c in w.containers then w.(containers := w.containers[c := w.containers[c].(alive := false)]) else w
    case StreamCloses(c) =>
      if c in w.host.openIo && c in w.containers then
        React(w.(attached := w.attached - {c}),
              OnContainerClosed(w.host.(openIo := w.host.openIo - {c}), w.containers[c].owner, c))
      else w
    case HostRestarts =>
      w.(host := HostState(map[], map[], {}), starts := map[], attached := {})
    case OutputLost(c, from, to) =>
      if c in w.containers && c !in w.host.openIo then
        w.(containers := w.containers[c := w.containers[c].(outbox := Without(w.containers[c].outbox, from, to))])
      else w
    case InputLost(c, from, to) =>
      if c in w.containers && c !in w.host.openIo then
        w.(containers := w.containers[c := w.containers[c].(inbox := Without(w.containers[c].inbox, from, to))])
      else w
  }

  /** What a broken stream swallowed. */
  function Without<T>(s: seq<T>, from: nat, to: nat): seq<T> {
    if from <= to <= |s| then s[..from] + s[to..] else s
  }

  function Run(w: World, events: seq<Event>): World
    decreases |events|
  {
    if events == [] then w else Run(Step(w, events[0]), events[1..])
  }

  /** A new agent-host process. Containers of an earlier one may be there, in any state. */
  ghost predicate Initial(w: World) {
    && w.host == HostState(map[], map[], {}) && w.starts == map[]
    && w.attached == {} && w.replaced == {}
    && w.frames == [] && w.handled == []
    && w.written <= w.sent <= w.commands.Keys
    && forall c {:trigger IdsKnown(w, c)} :: IdsKnown(w, c)
  }

  // ---------------------------------------------------------------------------------------------
  // What every run keeps
  // ---------------------------------------------------------------------------------------------

  predicate Terminal(f: Frame) {
    f.TurnRejected? || f.TurnEnded?
  }

  ghost predicate IsOver(frames: seq<Frame>, turnId: TurnId) {
    exists i :: 0 <= i < |frames| && Terminal(frames[i]) && frames[i].turnId == turnId
  }

  predicate BoundTo(w: World, key: ResidentKey, c: ContainerId) {
    key in w.host.activeTurns && w.host.activeTurns[key].containerId == Some(c)
  }

  predicate KnownCommand(sent: set<TurnId>, command: Command) {
    !command.Abort? ==> command.turnId in sent
  }

  predicate KnownLine(sent: set<TurnId>, line: Line) {
    && (line.SwitchResponse? ==> line.id.Some? && line.id.value in sent)
    && (line.PromptResponse? ==> line.turnId in sent)
  }

  /** What a container was told and answers is about Turns it was sent. */
  ghost predicate IdsKnown(w: World, c: ContainerId) {
    c in w.containers ==>
      && (forall x :: x in w.containers[c].inbox ==> KnownCommand(w.sent, x))
      && (forall x :: x in w.containers[c].outbox ==> KnownLine(w.sent, x))
  }

  /** One container, as the host is connected to it. */
  predicate ContainerOk(w: World, c: ContainerId) {
    && (c !in w.containers ==> c !in w.host.openIo && c !in w.attached && c !in w.replaced)
    && (c in w.containers ==>
          && (c in w.host.openIo ==>
                && c in w.attached && c !in w.replaced
                && w.containers[c].owner in w.host.attachments
                && w.host.attachments[w.containers[c].owner].containerId == c)
          && (c in w.attached && w.containers[c].alive && c !in w.replaced ==> c in w.host.openIo))
  }

  /** One resident: its active Turn, and how far that Turn got. */
  ghost predicate TurnOk(w: World, key: ResidentKey) {
    key in w.host.activeTurns ==>
      var t := w.host.activeTurns[key];
      && t.turnId in w.commands && w.commands[t.turnId].key == key && w.commands[t.turnId].chat == t.chat
      && !IsOver(w.frames, t.turnId)
      && (t.containerId.None? ==>
            && t.turnId in w.starts && w.starts[t.turnId].key == key
            && t.pendingSwitch.None? && t.pendingPrompt.None? && t.turnId !in w.written && t.turnId !in w.sent)
      && (t.containerId.Some? ==>
            var c := t.containerId.value;
            && c in w.containers && w.containers[c].owner == key && c in w.host.openIo
            && t.turnId !in w.starts
            && (t.pendingSwitch.Some? ==> t.pendingSwitch == Some(t.turnId))
            && (t.pendingSwitch.Some? ==> t.turnId !in w.written && t.pendingPrompt == Some(w.commands[t.turnId].text))
            && (t.pendingSwitch.None? ==> t.turnId in w.written))
  }

  /** One cached attachment. */
  predicate AttachmentOk(w: World, key: ResidentKey) {
    key in w.host.attachments ==>
      var c := w.host.attachments[key].containerId;
      && c in w.containers && w.containers[c].owner == key && c in w.attached
      && (c !in w.host.openIo ==> c in w.replaced)
  }

  /** One `handleStartTurn` between its awaits. */
  predicate StartOk(w: World, turnId: TurnId) {
    turnId in w.starts ==>
      var s := w.starts[turnId];
      && turnId in w.commands && w.commands[turnId].key == s.key && w.commands[turnId].text == s.text
      && s.key in w.host.activeTurns && w.host.activeTurns[s.key].turnId == turnId
      && w.host.activeTurns[s.key].containerId.None?
      && (s.spawned.Some? ==>
            && s.spawned.value in w.containers && w.containers[s.spawned.value].owner == s.key
            && s.spawned.value !in w.attached && s.spawned.value !in w.replaced
            && (s.key in w.host.attachments ==> w.host.attachments[s.key].containerId !in w.host.openIo))
  }

  ghost predicate FramesOk(w: World) {
    && (forall i :: 0 <= i < |w.frames| && !w.frames[i].TurnUnknown? ==> w.frames[i].turnId in w.commands)
    && AtMostOneEnd(w.frames)
  }

  /** Each Turn has at most one terminal frame, and nothing but "unknown" is said of it afterwards. */
  ghost predicate AtMostOneEnd(frames: seq<Frame>) {
    forall i, j :: 0 <= i < j < |frames| && Terminal(frames[i]) && frames[j].turnId == frames[i].turnId
                   ==> frames[j].TurnUnknown?
  }

  ghost predicate Inv(w: World) {
    && (forall c {:trigger ContainerOk(w, c)} :: ContainerOk(w, c))
    && (forall k {:trigger TurnOk(w, k)} :: TurnOk(w, k))
    && (forall k {:trigger AttachmentOk(w, k)} :: AttachmentOk(w, k))
    && (forall t {:trigger StartOk(w, t)} :: StartOk(w, t))
    && w.written <= w.sent <= w.commands.Keys
    && FramesOk(w)
  }

  lemma InitialInv(w: World)
    requires Initial(w)
    ensures Inv(w)
  {
  }

  // ---------------------------------------------------------------------------------------------
  // A step concerns one resident; the others keep what they had
  // ---------------------------------------------------------------------------------------------

  predicate Belongs(w: World, c: ContainerId, key: ResidentKey) {
    c in w.containers && w.containers[c].owner == key
  }

  ghost predicate SameContainer(w: World, v: World, c: ContainerId) {
    && (c in v.containers <==> c in w.containers)
    && (c in w.containers ==> v.containers[c] == w.containers[c])
    && (c in v.host.openIo <==> c in w.host.openIo)
    && (c in v.attached <==> c in w.attached)
    && (c in v.replaced <==> c in w.replaced)
  }

  ghost predicate OnlyResident(w: World, v: World, key: ResidentKey) {
    OnlyConnects(w, v, key) && OnlyRecords(w, v, key)
  }

  ghost predicate OnlyConnects(w: World, v: World, key: ResidentKey) {
    && v.host.activeTurns - {key} == w.host.activeTurns - {key}
    && v.host.attachments - {key} == w.host.attachments - {key}
    && (forall c :: !Belongs(v, c, key) ==> SameContainer(w, v, c))
    && (forall c :: c in w.containers ==> c in v.containers && v.containers[c].owner == w.containers[c].owner)
  }

  ghost predicate OnlyRecords(w: World, v: World, key: ResidentKey) {
    && (forall t :: t in v.starts && v.starts[t].key != key ==> t in w.starts && w.starts[t] == v.starts[t])
    && (forall t :: t in v.starts && v.starts[t].key == key ==> t in v.commands && v.commands[t].key == key)
    && (forall t :: t in w.starts && w.starts[t].key != key ==> t in v.starts && w.starts[t] == v.starts[t])
    && (forall t :: t in w.commands ==> t in v.commands && v.commands[t] == w.commands[t])
    && (v.frames == w.frames
        || (|v.frames| == |w.frames| + 1 && w.frames == v.frames[..|w.frames|] && FrameAllowed(w, v, key, v.frames[|w.frames|])))
    && w.written <= v.written <= v.sent && w.sent <= v.sent
    && (forall t :: t in v.sent && t !in w.sent ==> t in v.commands && v.commands[t].key == key)
    && (forall t :: t in v.written && t !in w.written ==> t in v.commands && v.commands[t].key == key)
  }

  /** A frame the step may add: an answer to a stop, or a word on a Turn of this resident that is not
      over. */
  ghost predicate FrameAllowed(w: World, v: World, key: ResidentKey, f: Frame) {
    f.TurnUnknown? || (f.turnId in v.commands && v.commands[f.turnId].key == key && !IsOver(w.frames, f.turnId))
  }

  lemma OtherContainers(w: World, v: World, key: ResidentKey)
    requires Inv(w) && OnlyResident(w, v, key)
    ensures forall c :: !Belongs(v, c, key) ==> ContainerOk(v, c)
  {
    Elsewhere(w.host.activeTurns, v.host.activeTurns, key);
    Elsewhere(w.host.attachments, v.host.attachments, key);
    forall c | !Belongs(v, c, key) ensures ContainerOk(v, c) {
      assert ContainerOk(w, c) && SameContainer(w, v, c);
    }
  }

  /** A Turn is over now only if it was before, or if the last frame says so. */
  lemma OverByLastFrame(before: seq<Frame>, after: seq<Frame>, turnId: TurnId)
    requires |after| == |before| + 1 && before == after[..|before|]
    ensures IsOver(after, turnId) <==> IsOver(before, turnId) || (Terminal(after[|before|]) && after[|before|].turnId == turnId)
  {
    if IsOver(before, turnId) {
      var i :| 0 <= i < |before| && Terminal(before[i]) && before[i].turnId == turnId;
      assert after[i] == before[i];
    }
    if IsOver(after, turnId) {
      var i :| 0 <= i < |after| && Terminal(after[i]) && after[i].turnId == turnId;
      assert i < |before| ==> after[i] == before[i];
    }
  }

  lemma OtherTurns(w: World, v: World, key: ResidentKey)
    requires Inv(w) && OnlyResident(w, v, key)
    ensures forall k :: k != key ==> TurnOk(v, k) && AttachmentOk(v, k)
  {
    Elsewhere(w.host.activeTurns, v.host.activeTurns, key);
    Elsewhere(w.host.attachments, v.host.attachments, key);
    forall k | k != key ensures TurnOk(v, k) && AttachmentOk(v, k) {
      assert TurnOk(w, k) && AttachmentOk(w, k);
      if k in v.host.attachments {
        assert SameContainer(w, v, v.host.attachments[k].containerId);
      }
      if k in v.host.activeTurns {
        var t := v.host.activeTurns[k];
        assert t.containerId.Some? ==> SameContainer(w, v, t.containerId.value);
        if v.frames != w.frames {
          OverByLastFrame(w.frames, v.frames, t.turnId);
        }
      }
    }
  }

  lemma OtherStarts(w: World, v: World, key: ResidentKey)
    requires Inv(w) && OnlyResident(w, v, key)
    ensures forall t :: t in v.starts && v.starts[t].key != key ==> StartOk(v, t)
  {
    Elsewhere(w.host.activeTurns, v.host.activeTurns, key);
    Elsewhere(w.host.attachments, v.host.attachments, key);
    forall t | t in v.starts && v.starts[t].key != key ensures StartOk(v, t) {
      var k := v.starts[t].key;
      assert StartOk(w, t) && AttachmentOk(w, k);
      assert v.starts[t].spawned.Some? ==> SameContainer(w, v, v.starts[t].spawned.value);
      assert k in w.host.attachments ==> SameContainer(w, v, w.host.attachments[k].containerId);
    }
  }

  lemma FramesStayOk(w: World, v: World, key: ResidentKey)
    requires Inv(w) && OnlyResident(w, v, key)
    ensures FramesOk(v)
  {
    if v.frames != w.frames {
      var n := |w.frames|;
      forall i, j | 0 <= i < j < |v.frames| && Terminal(v.frames[i]) && v.frames[j].turnId == v.frames[i].turnId
        ensures v.frames[j].TurnUnknown?
      {
        assert v.frames[i] == w.frames[i];
        if j < n {
          assert v.frames[j] == w.frames[j];
        } else {
          assert IsOver(w.frames, v.frames[j].turnId);
        }
      }
      forall i | 0 <= i < |v.frames| && !v.frames[i].TurnUnknown? ensures v.frames[i].turnId in v.commands {
        if i < n { assert v.frames[i] == w.frames[i]; }
      }
    }
  }

  /** What a step of `key` has to show. */
  lemma ResidentKeepsInv(w: World, v: World, key: ResidentKey)
    requires Inv(w) && OnlyResident(w, v, key)
    requires TurnOk(v, key) && AttachmentOk(v, key)
    requires forall c :: Belongs(v, c, key) ==> ContainerOk(v, c)
    requires forall t :: t in v.starts && v.starts[t].key == key ==> StartOk(v, t)
    requires v.sent <= v.commands.Keys
    ensures Inv(v)
  {
    OtherContainers(w, v, key);
    OtherTurns(w, v, key);
    OtherStarts(w, v, key);
    FramesStayOk(w, v, key);
    forall c ensures ContainerOk(v, c) {
      assert Belongs(v, c, key) || !Belongs(v, c, key);
    }
    forall t ensures StartOk(v, t) {
    }
  }

  // ---------------------------------------------------------------------------------------------
  // Every step keeps the invariant
  // ---------------------------------------------------------------------------------------------

  lemma BusyStartKeepsInv(w: World, key: ResidentKey, turnId: TurnId, chat: ChatId, text: string)
    requires Inv(w) && turnId !in w.commands && key in w.host.activeTurns
    ensures Inv(Step(w, StartTurn(key, turnId, chat, text)))
  {
    var v := Step(w, StartTurn(key, turnId, chat, text));
    assert TurnOk(w, key) && AttachmentOk(w, key) && StartOk(w, turnId);
    assert !IsOver(w.frames, turnId);
    OverByLastFrame(w.frames, v.frames, w.host.activeTurns[key].turnId);
    forall c | Belongs(v, c, key) ensures ContainerOk(v, c) { assert ContainerOk(w, c); }
    forall t | t in v.starts && v.starts[t].key == key ensures StartOk(v, t) { assert StartOk(w, t); }
    ResidentKeepsInv(w, v, key);
  }

  lemma FreeStartKeepsInv(w: World, key: ResidentKey, turnId: TurnId, chat: ChatId, text: string)
    requires Inv(w) && turnId !in w.commands && key !in w.host.activeTurns
    ensures Inv(Step(w, StartTurn(key, turnId, chat, text)))
  {
    var v := Step(w, StartTurn(key, turnId, chat, text));
    assert TurnOk(w, key) && AttachmentOk(w, key) && StartOk(w, turnId);
    assert w.frames + [] == w.frames;
    assert v.host.activeTurns - {key} == w.host.activeTurns - {key};
    assert !IsOver(w.frames, turnId);
    forall c | Belongs(v, c, key) ensures ContainerOk(v, c) { assert ContainerOk(w, c); }
    forall t | t in v.starts && v.starts[t].key == key ensures StartOk(v, t) { assert StartOk(w, t); }
    ResidentKeepsInv(w, v, key);
  }

  lemma StartTurnKeepsInv(w: World, key: ResidentKey, turnId: TurnId, chat: ChatId, text: string)
    requires Inv(w)
    ensures Inv(Step(w, StartTurn(key, turnId, chat, text)))
  {
    if turnId !in w.commands {
      if key in w.host.activeTurns {
        BusyStartKeepsInv(w, key, turnId, chat, text);
      } else {
        FreeStartKeepsInv(w, key, turnId, chat, text);
      }
    }
  }

  lemma StartFailsKeepsInv(w: World, turnId: TurnId)
    requires Inv(w)
    ensures Inv(Step(w, StartFails(turnId)))
  {
    var v := Step(w, StartFails(turnId));
    if turnId in w.starts {
      var key := w.starts[turnId].key;
      assert StartOk(w, turnId) && TurnOk(w, key) && AttachmentOk(w, key);
      assert v.host.activeTurns - {key} == w.host.activeTurns - {key};
      forall c | Belongs(v, c, key) ensures ContainerOk(v, c) { assert ContainerOk(w, c); }
      forall t ensures !(t in v.starts && v.starts[t].key == key) { assert StartOk(w, t); }
      ResidentKeepsInv(w, v, key);
    }
  }

  lemma UnknownStopKeepsInv(w: World, v: World, f: Frame)
    requires Inv(w) && f.TurnUnknown? && v == w.(frames := w.frames + [f])
    ensures Inv(v)
  {
    forall c ensures ContainerOk(v, c) { assert ContainerOk(w, c); }
    forall k ensures TurnOk(v, k) && AttachmentOk(v, k) {
      assert TurnOk(w, k) && AttachmentOk(w, k);
      if k in w.host.activeTurns {
        OverByLastFrame(w.frames, v.frames, w.host.activeTurns[k].turnId);
      }
    }
    forall t ensures StartOk(v, t) { assert StartOk(w, t); }
  }

  lemma KnownStopKeepsInv(w: World, v: World, key: ResidentKey)
    requires Inv(w) && key in w.host.activeTurns
    requires var h := w.host.(activeTurns := w.host.activeTurns[key := w.host.activeTurns[key].(stopRequested := true)]);
             || v == w.(host := h)
             || (key in w.host.attachments && v == Written(w.(host := h), WriteLine(h, w.host.attachments[key].containerId, Abort)))
    ensures Inv(v)
  {
    assert TurnOk(w, key) && AttachmentOk(w, key);
    assert v.host.activeTurns - {key} == w.host.activeTurns - {key};
    forall c | Belongs(v, c, key) ensures ContainerOk(v, c) { assert ContainerOk(w, c); }
    forall t | t in v.starts && v.starts[t].key == key ensures StartOk(v, t) { assert StartOk(w, t); }
    ResidentKeepsInv(w, v, key);
  }

  lemma StopTurnKeepsInv(w: World, principal: string, admin: bool, turnId: TurnId)
    requires Inv(w)
    ensures Inv(Step(w, StopTurn(principal, admin, turnId)))
  {
    var v := Step(w, StopTurn(principal, admin, turnId));
    match StopTarget(w.host, principal, admin, turnId)
    case None => UnknownStopKeepsInv(w, v, TurnUnknown(turnId));
    case Some(key) =>
      assert w.frames + [] == w.frames;
      KnownStopKeepsInv(w, v, key);
  }

  /** Steps inside one container. */
  lemma InsideContainerKeepsInv(w: World, v: World, c: ContainerId, y: Container)
    requires Inv(w) && c in w.containers && y.owner == w.containers[c].owner && (y.alive ==> w.containers[c].alive)
    requires v == w.(containers := w.containers[c := y], handled := v.handled)
    ensures Inv(v)
  {
    forall d ensures ContainerOk(v, d) { assert ContainerOk(w, d); }
    forall k ensures TurnOk(v, k) && AttachmentOk(v, k) { assert TurnOk(w, k) && AttachmentOk(w, k); }
    forall t ensures StartOk(v, t) { assert StartOk(w, t); }
  }

  lemma InsideStepKeepsInv(w: World, e: Event)
    requires Inv(w) && (e.Dies? || e.PiHandles? || e.PiEmits? || e.OutputLost? || e.InputLost?)
    ensures Inv(Step(w, e))
  {
    var v := Step(w, e);
    if e.container in w.containers {
      assert w.containers[e.container := w.containers[e.container]] == w.containers;
      InsideContainerKeepsInv(w, v, e.container, v.containers[e.container]);
    }
  }

  lemma StreamClosesKeepsInv(w: World, c: ContainerId)
    requires Inv(w)
    ensures Inv(Step(w, StreamCloses(c)))
  {
    var v := Step(w, StreamCloses(c));
    if c in w.host.openIo && c in w.containers {
      var key := w.containers[c].owner;
      assert ContainerOk(w, c) && TurnOk(w, key) && AttachmentOk(w, key);
      assert v.host.activeTurns - {key} == w.host.activeTurns - {key};
      assert v.host.attachments - {key} == w.host.attachments - {key};
      forall d | Belongs(v, d, key) ensures ContainerOk(v, d) { assert ContainerOk(w, d); }
      forall t | t in v.starts && v.starts[t].key == key ensures StartOk(v, t) { assert StartOk(w, t); }
      ResidentKeepsInv(w, v, key);
    }
  }

  /** Everything in memory is gone; the containers and the records are as they were. */
  lemma HostRestartsKeepsInv(w: World)
    requires Inv(w)
    ensures Inv(Step(w, HostRestarts))
  {
    var v := Step(w, HostRestarts);
    forall c ensures ContainerOk(v, c) { assert ContainerOk(w, c); }
  }

  /** The Turn of `key` goes on, in its container `c`. */
  lemma TurnGoesOn(w: World, v: World, key: ResidentKey, c: ContainerId)
    requires Inv(w) && BoundTo(w, key, c) && BoundTo(v, key, c)
    requires v == w.(host := v.host, containers := v.containers, frames := v.frames, sent := v.sent, written := v.written)
    requires v.host == w.host.(attachments := v.host.attachments, activeTurns := v.host.activeTurns)
    requires v.host.activeTurns - {key} == w.host.activeTurns - {key}
    requires v.host.attachments - {key} == w.host.attachments - {key}
    requires key in w.host.attachments && key in v.host.attachments
    requires v.host.attachments[key].containerId == w.host.attachments[key].containerId
    requires c in w.containers && c in v.containers && v.containers == w.containers[c := v.containers[c]]
    requires v.containers[c].owner == w.containers[c].owner && v.containers[c].alive == w.containers[c].alive
    requires var t := w.host.activeTurns[key];
             && v.host.activeTurns[key].turnId == t.turnId && v.host.activeTurns[key].chat == t.chat
             && (v.frames == w.frames || exists f :: v.frames == w.frames + [f] && !Terminal(f) && !f.TurnUnknown? && f.turnId == t.turnId)
             && ((v.written == w.written && v.sent == w.sent)
                 || (v.written == w.written + {t.turnId} && v.sent == w.sent + {t.turnId}))
    requires var t := v.host.activeTurns[key];
             && t.turnId in w.commands
             && (t.pendingSwitch.Some? ==> t.pendingSwitch == Some(t.turnId))
             && (t.pendingSwitch.Some? ==> t.turnId !in v.written && t.pendingPrompt == Some(w.commands[t.turnId].text))
             && (t.pendingSwitch.None? ==> t.turnId in v.written)
    ensures Inv(v)
  {
    assert TurnOk(w, key) && AttachmentOk(w, key) && ContainerOk(w, c);
    if v.frames != w.frames {
      OverByLastFrame(w.frames, v.frames, w.host.activeTurns[key].turnId);
    }
    forall d | Belongs(v, d, key) ensures ContainerOk(v, d) { assert ContainerOk(w, d); }
    forall t ensures !(t in v.starts && v.starts[t].key == key) { assert StartOk(w, t); }
    ResidentKeepsInv(w, v, key);
  }

  /** The Turn of `key` ends. */
  lemma TurnEnds(w: World, v: World, key: ResidentKey, c: ContainerId)
    requires Inv(w) && BoundTo(w, key, c)
    requires v == w.(host := v.host, containers := v.containers, frames := v.frames)
    requires v.host == w.host.(attachments := v.host.attachments, activeTurns := w.host.activeTurns - {key})
    requires v.host.attachments - {key} == w.host.attachments - {key}
    requires key in w.host.attachments && key in v.host.attachments
    requires v.host.attachments[key].containerId == w.host.attachments[key].containerId == c
    requires c in w.containers && c in v.containers && v.containers == w.containers[c := v.containers[c]]
    requires v.containers[c].owner == w.containers[c].owner && v.containers[c].alive == w.containers[c].alive
    requires exists f :: v.frames == w.frames + [f] && !f.TurnUnknown? && f.turnId == w.host.activeTurns[key].turnId
    ensures Inv(v)
  {
    assert TurnOk(w, key) && AttachmentOk(w, key) && ContainerOk(w, c);
    forall d | Belongs(v, d, key) ensures ContainerOk(v, d) { assert ContainerOk(w, d); }
    forall t ensures !(t in v.starts && v.starts[t].key == key) { assert StartOk(w, t); }
    ResidentKeepsInv(w, v, key);
  }

  /** The first line leaves the outbox. */
  function Popped(x: Container): Container
    requires x.outbox != []
  {
    x.(outbox := x.outbox[1..])
  }

  lemma UnboundLineKeepsInv(w: World, c: ContainerId)
    requires Inv(w) && c in w.attached && c in w.containers && w.containers[c].outbox != []
    requires !BoundTo(w, w.containers[c].owner, c)
    ensures Inv(Step(w, LineArrives(c)))
  {
    assert w.frames + [] == w.frames;
    InsideContainerKeepsInv(w, Step(w, LineArrives(c)), c, Popped(w.containers[c]));
  }

  lemma BoundLineKeepsInv(w: World, c: ContainerId)
    requires Inv(w) && c in w.attached && c in w.containers && w.containers[c].outbox != []
    requires BoundTo(w, w.containers[c].owner, c)
    ensures Inv(Step(w, LineArrives(c)))
  {
    var key := w.containers[c].owner;
    var v := Step(w, LineArrives(c));
    assert ContainerOk(w, c) && TurnOk(w, key) && AttachmentOk(w, key);
    assert w.frames + [] == w.frames;
    if BoundTo(v, key, c) {
      TurnGoesOn(w, v, key, c);
    } else {
      TurnEnds(w, v, key, c);
    }
  }

  lemma LineArrivesKeepsInv(w: World, c: ContainerId)
    requires Inv(w)
    ensures Inv(Step(w, LineArrives(c)))
  {
    if c in w.attached && c in w.containers && w.containers[c].outbox != [] {
      if BoundTo(w, w.containers[c].owner, c) {
        BoundLineKeepsInv(w, c);
      } else {
        UnboundLineKeepsInv(w, c);
      }
    }
  }

  /** The start of `turnId` knows its container `c` now: `u` is the state in which it goes on. */
  ghost predicate ReadyToBind(w: World, u: World, turnId: TurnId, key: ResidentKey, c: ContainerId) {
    && turnId in w.starts && w.starts[turnId].key == key
    && u == w.(host := u.host, starts := w.starts - {turnId}, attached := u.attached)
    && u.host.activeTurns == w.host.activeTurns
    && u.host.attachments - {key} == w.host.attachments - {key}
    && key in u.host.attachments && u.host.attachments[key].containerId == c
    && Belongs(u, c, key) && c in u.host.openIo && c in u.attached && c !in u.replaced
    && u.host.openIo == w.host.openIo + {c} && u.attached == w.attached + {c}
    && (forall d :: Belongs(u, d, key) && d != c ==> d !in u.host.openIo && ContainerOk(w, d))
  }

  lemma BoundOnlyConnects(w: World, u: World, v: World, turnId: TurnId, key: ResidentKey, c: ContainerId)
    requires ReadyToBind(w, u, turnId, key, c) && key in u.host.activeTurns
    requires v == React(u, OnBound(u.host, key, w.starts[turnId].text))
    ensures OnlyConnects(w, v, key)
  {
    assert v.host.activeTurns - {key} == w.host.activeTurns - {key};
  }

  lemma BoundOnlyRecords(w: World, u: World, v: World, turnId: TurnId, key: ResidentKey, c: ContainerId)
    requires Inv(w) && ReadyToBind(w, u, turnId, key, c) && key in u.host.activeTurns
    requires v == React(u, OnBound(u.host, key, w.starts[turnId].text))
    ensures OnlyRecords(w, v, key)
    ensures forall s :: s in v.starts ==> v.starts[s].key != key
  {
    assert StartOk(w, turnId) && TurnOk(w, key);
    assert w.frames + [] == w.frames;
    assert v.starts == w.starts - {turnId};
    forall s | s in v.starts ensures v.starts[s].key != key { assert StartOk(w, s); }
  }

  lemma BoundTurnOk(w: World, u: World, v: World, turnId: TurnId, key: ResidentKey, c: ContainerId)
    requires Inv(w) && ReadyToBind(w, u, turnId, key, c) && key in u.host.activeTurns
    requires v == React(u, OnBound(u.host, key, w.starts[turnId].text))
    ensures TurnOk(v, key) && AttachmentOk(v, key) && v.sent <= v.commands.Keys
    ensures forall d :: Belongs(v, d, key) ==> ContainerOk(v, d)
  {
    assert StartOk(w, turnId) && TurnOk(w, key);
    assert w.frames + [] == w.frames;
    forall d | Belongs(v, d, key) ensures ContainerOk(v, d) {
      assert Belongs(u, d, key) && (d != c ==> ContainerOk(w, d));
    }
  }

  lemma BindKeepsInv(w: World, u: World, turnId: TurnId, key: ResidentKey, c: ContainerId)
    requires Inv(w) && ReadyToBind(w, u, turnId, key, c) && key in u.host.activeTurns
    ensures Inv(React(u, OnBound(u.host, key, w.starts[turnId].text)))
  {
    var v := React(u, OnBound(u.host, key, w.starts[turnId].text));
    BoundOnlyConnects(w, u, v, turnId, key, c);
    BoundOnlyRecords(w, u, v, turnId, key, c);
    BoundTurnOk(w, u, v, turnId, key, c);
    ResidentKeepsInv(w, v, key);
  }

  /** The state in which a start goes on when its container is the one already attached. */
  function CachedReady(w: World, turnId: TurnId): World
    requires turnId in w.starts
  {
    w.(starts := w.starts - {turnId})
  }

  lemma CachedIsReady(w: World, turnId: TurnId, c: ContainerId)
    requires Inv(w) && turnId in w.starts && w.starts[turnId].spawned.None? && Spawnable(w, w.starts[turnId].key, c)
    requires OnSpawned(w.host, w.starts[turnId].key, c).1
    ensures ReadyToBind(w, CachedReady(w, turnId), turnId, w.starts[turnId].key, c)
    ensures w.starts[turnId].key in w.host.activeTurns && c in w.containers
  {
    var key := w.starts[turnId].key;
    assert StartOk(w, turnId) && AttachmentOk(w, key) && ContainerOk(w, c) && TurnOk(w, key);
    var u := CachedReady(w, turnId);
    forall d | Belongs(u, d, key) ensures ContainerOk(w, d) && (d != c ==> d !in u.host.openIo) {
      assert ContainerOk(w, d);
    }
    assert w.host.openIo + {c} == w.host.openIo && w.attached + {c} == w.attached;
  }

  lemma NewSpawnKeepsInv(w: World, turnId: TurnId, c: ContainerId)
    requires Inv(w) && turnId in w.starts && w.starts[turnId].spawned.None? && Spawnable(w, w.starts[turnId].key, c)
    requires !OnSpawned(w.host, w.starts[turnId].key, c).1
    ensures Inv(Spawned(w, turnId, c))
  {
    var key := w.starts[turnId].key;
    var v := Spawned(w, turnId, c);
    assert StartOk(w, turnId) && AttachmentOk(w, key) && ContainerOk(w, c) && TurnOk(w, key);
    assert key in w.host.attachments ==> ContainerOk(w, w.host.attachments[key].containerId);
    forall d | Belongs(v, d, key) ensures ContainerOk(v, d) { assert ContainerOk(w, d); }
    forall s | s in v.starts && v.starts[s].key == key ensures StartOk(v, s) { assert StartOk(w, s); }
    ResidentKeepsInv(w, v, key);
  }

  function AttachReady(w: World, turnId: TurnId): World
    requires turnId in w.starts && w.starts[turnId].spawned.Some?
  {
    var s := w.starts[turnId];
    w.(host := OnAttached(w.host, s.key, s.spawned.value), starts := w.starts - {turnId}, attached := w.attached + {s.spawned.value})
  }

  lemma AttachedIsReady(w: World, turnId: TurnId)
    requires Inv(w) && turnId in w.starts && w.starts[turnId].spawned.Some?
    ensures ReadyToBind(w, AttachReady(w, turnId), turnId, w.starts[turnId].key, w.starts[turnId].spawned.value)
    ensures w.starts[turnId].key in w.host.activeTurns && w.starts[turnId].spawned.value !in w.attached
  {
    var s := w.starts[turnId];
    var key, c := s.key, s.spawned.value;
    assert StartOk(w, turnId) && AttachmentOk(w, key) && ContainerOk(w, c) && TurnOk(w, key);
    var u := AttachReady(w, turnId);
    forall d | Belongs(u, d, key) && d != c ensures d !in u.host.openIo && ContainerOk(w, d) {
      assert ContainerOk(w, d);
    }
  }

  lemma StepKeepsInv(w: World, e: Event)
    requires Inv(w)
    ensures Inv(Step(w, e))
  {
    match e
    case StartTurn(key, turnId, chat, text) => StartTurnKeepsInv(w, key, turnId, chat, text);
    case SpawnReturns(turnId, c) =>
      if turnId in w.starts && w.starts[turnId].spawned.None? && Spawnable(w, w.starts[turnId].key, c) {
        if OnSpawned(w.host, w.starts[turnId].key, c).1 {
          CachedIsReady(w, turnId, c);
          BindKeepsInv(w, CachedReady(w, turnId), turnId, w.starts[turnId].key, c);
        } else {
          NewSpawnKeepsInv(w, turnId, c);
        }
      }
    case StartFails(turnId) => StartFailsKeepsInv(w, turnId);
    case AttachReturns(turnId) =>
      if turnId in w.starts && w.starts[turnId].spawned.Some? {
        AttachedIsReady(w, turnId);
        BindKeepsInv(w, AttachReady(w, turnId), turnId, w.starts[turnId].key, w.starts[turnId].spawned.value);
      }
    case StopTurn(principal, admin, turnId) => StopTurnKeepsInv(w, principal, admin, turnId);
    case LineArrives(c) => LineArrivesKeepsInv(w, c);
    case StreamCloses(c) => StreamClosesKeepsInv(w, c);
    case HostRestarts => HostRestartsKeepsInv(w);
    case _ => InsideStepKeepsInv(w, e);
  }
}

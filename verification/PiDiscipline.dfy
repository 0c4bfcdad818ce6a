/** What pi is doing in each container, as long as no stream and no agent-host is lost while pi runs a
    prompt or has one to take up. */
module PiDiscipline {
  import opened Wrappers
  import opened AgentHost
  import opened TurnWorld

  function Pending(inbox: seq<Command>): seq<Command> {
    if inbox == [] then []
    else if inbox[0].Abort? then Pending(inbox[1..])
    else [inbox[0]] + Pending(inbox[1..])
  }

  function Answers(outbox: seq<Line>): seq<Line> {
    if outbox == [] then []
    else if Noise(outbox[0]) then Answers(outbox[1..])
    else [outbox[0]] + Answers(outbox[1..])
  }

  /** pi runs no prompt and has none to take up. */
  predicate Calm(x: Container) {
    !x.running && forall p :: p in x.inbox ==> !p.Prompt?
  }

  /** A container no Turn is bound to: pi is calm; and if the host believes to know the session, nothing
      is under way and it is the one pi has loaded. */
  predicate AtRest(x: Container, remembered: Option<ChatId>) {
    && Calm(x)
    && (remembered.Some? ==> Pending(x.inbox) == [] && Answers(x.outbox) == [] && x.session == remembered)
  }

  predicate About(line: Line, turnId: TurnId) {
    (line.SwitchResponse? && line.id == Some(turnId)) || (line.PromptResponse? && line.turnId == turnId)
  }

  ghost predicate NotAsked(commands: seq<Command>, turnId: TurnId) {
    forall i :: 0 <= i < |commands| ==> commands[i].Abort? || commands[i].turnId != turnId
  }

  ghost predicate NoneAbout(lines: seq<Line>, turnId: TurnId) {
    forall i :: 0 <= i < |lines| ==> !About(lines[i], turnId)
  }

  /** The switch of `t` is the last thing pi was asked; before it only switches of earlier Turns. */
  ghost predicate SwitchAsked(x: Container, t: Turn, remembered: Option<ChatId>) {
    var p := Pending(x.inbox);
    && p != [] && p[|p| - 1] == SwitchSession(t.turnId, t.chat)
    && (forall i :: 0 <= i < |p| - 1 ==> p[i].SwitchSession? && p[i].turnId != t.turnId)
    && NoneAbout(Answers(x.outbox), t.turnId)
    && (remembered.Some? ==> |p| == 1 && Answers(x.outbox) == [] && x.session == remembered)
  }

  /** The answer to the switch of `t` is the last thing pi said. */
  ghost predicate SwitchAnswered(x: Container, t: Turn, remembered: Option<ChatId>) {
    var a := Answers(x.outbox);
    && Pending(x.inbox) == [] && a != []
    && var last := a[|a| - 1];
       && last.SwitchResponse? && last.id == Some(t.turnId)
       && NoneAbout(a[..|a| - 1], t.turnId)
       && (last.success && !last.cancelled ==> x.session == Some(t.chat))
       && (remembered.Some? ==> |a| == 1 && (!(last.success && !last.cancelled) ==> x.session == remembered))
  }

  ghost predicate Switching(x: Container, t: Turn, remembered: Option<ChatId>) {
    && t.pendingSwitch == Some(t.turnId) && !x.running
    && (SwitchAsked(x, t, remembered) || SwitchAnswered(x, t, remembered))
  }

  /** The prompt of `t` is under way in `x`, or running there, and nothing else. */
  predicate Prompted(x: Container, t: Turn, text: string, remembered: Option<ChatId>) {
    && t.pendingSwitch == None
    && remembered == Some(t.chat) && x.session == remembered
    && (|| (Pending(x.inbox) == [Prompt(t.turnId, text)] && Answers(x.outbox) == [] && !x.running)
        || (Pending(x.inbox) == []
            && (|| (Answers(x.outbox) == [PromptResponse(t.turnId, false)] && !x.running)
                || (Answers(x.outbox) == [PromptResponse(t.turnId, true)] && x.running)
                || (Answers(x.outbox) == [PromptResponse(t.turnId, true), AgentSettled] && !x.running)
                || (Answers(x.outbox) == [] && x.running)
                || (Answers(x.outbox) == [AgentSettled] && !x.running))))
  }

  function Remembered(w: World, c: ContainerId): Option<ChatId>
    requires c in w.containers
  {
    var key := w.containers[c].owner;
    if c in w.host.openIo && key in w.host.attachments && w.host.attachments[key].containerId == c then
      w.host.attachments[key].currentChat
    else None
  }

  ghost predicate Disciplined(w: World, c: ContainerId) {
    c in w.containers ==>
      var x := w.containers[c];
      if BoundTo(w, x.owner, c) then
        var t := w.host.activeTurns[x.owner];
        && t.turnId in w.commands
        && (Switching(x, t, Remembered(w, c)) || Prompted(x, t, w.commands[t.turnId].text, Remembered(w, c)))
      else x.alive || c in w.host.openIo ==> AtRest(x, Remembered(w, c))
  }

  predicate StartsCalm(w: World, turnId: TurnId) {
    turnId in w.starts && w.starts[turnId].spawned.Some? && w.starts[turnId].spawned.value in w.containers ==>
      Calm(w.containers[w.starts[turnId].spawned.value])
  }

  /** Session isolation: every prompt pi took up was the one its Turn was started with, and pi had
      that Turn's chat loaded. */
  ghost predicate Isolated(w: World) {
    forall i :: 0 <= i < |w.handled| ==>
      && w.handled[i].turnId in w.commands
      && w.handled[i].session == Some(w.commands[w.handled[i].turnId].chat)
      && w.handled[i].text == w.commands[w.handled[i].turnId].text
  }

  ghost predicate Peace(w: World) {
    && Inv(w)
    && (forall c {:trigger IdsKnown(w, c)} :: IdsKnown(w, c))
    && (forall c {:trigger Disciplined(w, c)} :: Disciplined(w, c))
    && (forall t {:trigger StartsCalm(w, t)} :: StartsCalm(w, t))
    && Isolated(w)
  }

  /** In every container that lives, pi is calm. */
  ghost predicate AllCalm(w: World) {
    forall c :: c in w.containers && w.containers[c].alive ==> Calm(w.containers[c])
  }

  /** The step loses no stream, and no agent-host, on which pi is not calm. */
  ghost predicate QuietStep(w: World, e: Event) {
    match e
    case StreamCloses(c) => c in w.host.openIo && c in w.containers && w.containers[c].alive ==> Calm(w.containers[c])
    case HostRestarts => AllCalm(w)
    case _ => true
  }

  ghost predicate QuietRun(w: World, events: seq<Event>)
    decreases |events|
  {
    events != [] ==> QuietStep(w, events[0]) && QuietRun(Step(w, events[0]), events[1..])
  }

  // ---------------------------------------------------------------------------------------------
  // What a step leaves alone
  // ---------------------------------------------------------------------------------------------

  /** Nothing that matters for `c` changed. */
  ghost predicate Untouched(w: World, v: World, c: ContainerId) {
    && (c in v.containers ==> c in w.containers)
    && (c in w.containers && c in v.containers ==>
          var key := w.containers[c].owner;
          && v.containers[c] == w.containers[c]
          && (c in v.host.openIo <==> c in w.host.openIo)
          && Remembered(v, c) == Remembered(w, c)
          && (BoundTo(v, key, c) <==> BoundTo(w, key, c))
          && (BoundTo(w, key, c) ==>
                var s, t := w.host.activeTurns[key], v.host.activeTurns[key];
                s.turnId == t.turnId && s.chat == t.chat && s.pendingSwitch == t.pendingSwitch))
  }

  ghost predicate Recorded(w: World, v: World) {
    && w.sent <= v.sent
    && (forall t :: t in w.commands ==> t in v.commands && v.commands[t] == w.commands[t])
  }

  lemma UntouchedKeeps(w: World, v: World, c: ContainerId)
    requires Disciplined(w, c) && IdsKnown(w, c) && Untouched(w, v, c) && Recorded(w, v)
    ensures Disciplined(v, c) && IdsKnown(v, c)
  {
  }

  /** What a step has to show. */
  lemma StepPeace(w: World, v: World)
    requires Peace(w) && Inv(v) && Recorded(w, v) && Isolated(v)
    requires forall c {:trigger Untouched(w, v, c)} :: Untouched(w, v, c) || (Disciplined(v, c) && IdsKnown(v, c))
    requires forall t {:trigger StartsCalm(v, t)} :: StartsCalm(v, t)
    ensures Peace(v)
  {
    forall c ensures Disciplined(v, c) && IdsKnown(v, c) {
      assert Disciplined(w, c) && IdsKnown(w, c);
      if Untouched(w, v, c) { UntouchedKeeps(w, v, c); }
    }
  }

  lemma {:induction false} PendingAppend(inbox: seq<Command>, x: Command)
    ensures Pending(inbox + [x]) == if x.Abort? then Pending(inbox) else Pending(inbox) + [x]
  {
    if inbox != [] {
      assert (inbox + [x])[1..] == inbox[1..] + [x];
      PendingAppend(inbox[1..], x);
    }
  }

  lemma {:induction false} AnswersAppend(outbox: seq<Line>, x: Line)
    ensures Answers(outbox + [x]) == if Noise(x) then Answers(outbox) else Answers(outbox) + [x]
  {
    if outbox != [] {
      assert (outbox + [x])[1..] == outbox[1..] + [x];
      AnswersAppend(outbox[1..], x);
    }
  }

  lemma {:induction false} PendingIsInbox(inbox: seq<Command>)
    ensures forall p :: p in Pending(inbox) <==> p in inbox && !p.Abort?
  {
    if inbox != [] {
      assert inbox == [inbox[0]] + inbox[1..];
      PendingIsInbox(inbox[1..]);
    }
  }

  lemma {:induction false} AnswersAreOutbox(outbox: seq<Line>)
    ensures forall l :: l in Answers(outbox) <==> l in outbox && !Noise(l)
  {
    if outbox != [] {
      assert outbox == [outbox[0]] + outbox[1..];
      AnswersAreOutbox(outbox[1..]);
    }
  }

  /** A container that was not told of `turnId` says and hears nothing about it. */
  lemma UnheardOf(w: World, c: ContainerId, turnId: TurnId)
    requires IdsKnown(w, c) && c in w.containers && turnId !in w.sent
    ensures NotAsked(Pending(w.containers[c].inbox), turnId)
    ensures NoneAbout(Answers(w.containers[c].outbox), turnId)
  {
    var x := w.containers[c];
    PendingIsInbox(x.inbox);
    AnswersAreOutbox(x.outbox);
    forall i | 0 <= i < |Pending(x.inbox)| ensures Pending(x.inbox)[i].Abort? || Pending(x.inbox)[i].turnId != turnId {
      assert Pending(x.inbox)[i] in Pending(x.inbox);
    }
    forall i | 0 <= i < |Answers(x.outbox)| ensures !About(Answers(x.outbox)[i], turnId) {
      assert Answers(x.outbox)[i] in Answers(x.outbox);
    }
  }

  lemma CalmPending(x: Container)
    requires Calm(x)
    ensures forall i :: 0 <= i < |Pending(x.inbox)| ==> Pending(x.inbox)[i].SwitchSession?
  {
    PendingIsInbox(x.inbox);
    forall i | 0 <= i < |Pending(x.inbox)| ensures Pending(x.inbox)[i].SwitchSession? {
      assert Pending(x.inbox)[i] in Pending(x.inbox);
    }
  }

  // ---------------------------------------------------------------------------------------------
  // The host's steps
  // ---------------------------------------------------------------------------------------------

  lemma StartTurnKeepsPeace(w: World, key: ResidentKey, turnId: TurnId, chat: ChatId, text: string)
    requires Peace(w)
    ensures Peace(Step(w, StartTurn(key, turnId, chat, text)))
  {
    var v := Step(w, StartTurn(key, turnId, chat, text));
    StepKeepsInv(w, StartTurn(key, turnId, chat, text));
    forall t ensures StartsCalm(v, t) { assert StartsCalm(w, t); }
    forall c ensures Untouched(w, v, c) { }
    StepPeace(w, v);
  }

  lemma StartFailsKeepsPeace(w: World, turnId: TurnId)
    requires Peace(w)
    ensures Peace(Step(w, StartFails(turnId)))
  {
    var v := Step(w, StartFails(turnId));
    StepKeepsInv(w, StartFails(turnId));
    assert StartOk(w, turnId);
    forall t ensures StartsCalm(v, t) { assert StartsCalm(w, t); }
    forall c ensures Untouched(w, v, c) { }
    StepPeace(w, v);
  }

  lemma StopTurnKeepsPeace(w: World, principal: string, admin: bool, turnId: TurnId)
    requires Peace(w)
    ensures Peace(Step(w, StopTurn(principal, admin, turnId)))
  {
    var v := Step(w, StopTurn(principal, admin, turnId));
    StepKeepsInv(w, StopTurn(principal, admin, turnId));
    match StopTarget(w.host, principal, admin, turnId)
    case None =>
      forall t ensures StartsCalm(v, t) { assert StartsCalm(w, t); }
      forall c ensures Untouched(w, v, c) { }
      StepPeace(w, v);
    case Some(key) =>
      assert AttachmentOk(w, key);
      StoppedIsPeace(w, v, key);
  }

  lemma StoppedIsPeace(w: World, v: World, key: ResidentKey)
    requires Peace(w) && Inv(v) && key in w.host.activeTurns && AttachmentOk(w, key)
    requires var h := w.host.(activeTurns := w.host.activeTurns[key := w.host.activeTurns[key].(stopRequested := true)]);
             && v.host == h && v.commands == w.commands && v.sent == w.sent && v.handled == w.handled && v.starts == w.starts
             && (v.containers == w.containers
                 || (key in w.host.attachments && w.host.attachments[key].containerId in w.containers
                     && var c := w.host.attachments[key].containerId;
                        v.containers == w.containers[c := w.containers[c].(inbox := w.containers[c].inbox + [Abort])]))
    ensures Peace(v)
  {
    forall t ensures StartsCalm(v, t) { assert StartsCalm(w, t); }
    forall c ensures Untouched(w, v, c) || (Disciplined(v, c) && IdsKnown(v, c)) {
      if v.containers != w.containers && c == w.host.attachments[key].containerId {
        assert Disciplined(w, c) && IdsKnown(w, c);
        PendingAppend(w.containers[c].inbox, Abort);
      }
    }
    StepPeace(w, v);
  }

  lemma NewSpawnKeepsPeace(w: World, turnId: TurnId, c: ContainerId)
    requires Peace(w) && turnId in w.starts && w.starts[turnId].spawned.None? && Spawnable(w, w.starts[turnId].key, c)
    requires !OnSpawned(w.host, w.starts[turnId].key, c).1
    ensures Peace(Spawned(w, turnId, c))
  {
    var key := w.starts[turnId].key;
    var v := Spawned(w, turnId, c);
    NewSpawnKeepsInv(w, turnId, c);
    assert StartOk(w, turnId) && AttachmentOk(w, key) && ContainerOk(w, c) && TurnOk(w, key);
    assert Disciplined(w, c);
    forall t ensures StartsCalm(v, t) { assert StartsCalm(w, t); }
    forall d ensures Untouched(w, v, d) || (Disciplined(v, d) && IdsKnown(v, d)) {
      assert Disciplined(w, d) && IdsKnown(w, d) && ContainerOk(w, d);
    }
    StepPeace(w, v);
  }

  lemma BoundIsDisciplined(x: Container, y: Container, t: Turn, u: Turn, text: string, remembered: Option<ChatId>)
    requires AtRest(x, remembered) && u.turnId == t.turnId && u.chat == t.chat
    requires NotAsked(Pending(x.inbox), t.turnId)
    requires NoneAbout(Answers(x.outbox), t.turnId)
    requires if remembered == Some(t.chat) then u.pendingSwitch == None && y == x.(inbox := x.inbox + [Prompt(t.turnId, text)])
             else u.pendingSwitch == Some(t.turnId) && y == x.(inbox := x.inbox + [SwitchSession(t.turnId, t.chat)])
    ensures Switching(y, u, remembered) || Prompted(y, u, text, remembered)
  {
    CalmPending(x);
    PendingAppend(x.inbox, Prompt(t.turnId, text));
    PendingAppend(x.inbox, SwitchSession(t.turnId, t.chat));
    if remembered != Some(t.chat) {
      var p := Pending(y.inbox);
      assert p == Pending(x.inbox) + [SwitchSession(t.turnId, t.chat)];
      assert SwitchAsked(y, u, remembered);
    }
  }

  /** What `u` knows of the container it is about to bind. */
  ghost predicate ReadyInPeace(w: World, u: World, turnId: TurnId, key: ResidentKey, c: ContainerId) {
    && ReadyToBind(w, u, turnId, key, c) && key in u.host.activeTurns && c in w.containers
    && AtRest(w.containers[c], u.host.attachments[key].currentChat)
    && (forall d :: d in w.containers && d != c ==> Remembered(u, d) == Remembered(w, d))
  }

  lemma BoundContainer(w: World, u: World, v: World, turnId: TurnId, key: ResidentKey, c: ContainerId)
    requires Inv(w) && IdsKnown(w, c) && ReadyInPeace(w, u, turnId, key, c)
    requires v == React(u, OnBound(u.host, key, w.starts[turnId].text))
    ensures Disciplined(v, c) && IdsKnown(v, c)
  {
    assert StartOk(w, turnId) && TurnOk(w, key);
    var x := w.containers[c];
    UnheardOf(w, c, turnId);
    if BoundTo(v, key, c) {
      BoundIsDisciplined(x, v.containers[c], u.host.activeTurns[key], v.host.activeTurns[key], w.starts[turnId].text, Remembered(v, c));
    }
  }

  lemma BindKeepsPeace(w: World, u: World, turnId: TurnId, key: ResidentKey, c: ContainerId)
    requires Peace(w) && ReadyInPeace(w, u, turnId, key, c)
    ensures Peace(React(u, OnBound(u.host, key, w.starts[turnId].text)))
  {
    var v := React(u, OnBound(u.host, key, w.starts[turnId].text));
    BindKeepsInv(w, u, turnId, key, c);
    assert IdsKnown(w, c);
    BoundContainer(w, u, v, turnId, key, c);
    BoundElsewhere(w, u, v, turnId, key, c);
    StepPeace(w, v);
  }

  lemma BoundElsewhere(w: World, u: World, v: World, turnId: TurnId, key: ResidentKey, c: ContainerId)
    requires Peace(w) && ReadyInPeace(w, u, turnId, key, c)
    requires v == React(u, OnBound(u.host, key, w.starts[turnId].text))
    ensures Recorded(w, v) && Isolated(v)
    ensures forall d :: d != c ==> Untouched(w, v, d)
    ensures forall t :: StartsCalm(v, t)
  {
    assert StartOk(w, turnId) && TurnOk(w, key);
    forall t ensures StartsCalm(v, t) { assert StartsCalm(w, t) && StartOk(w, t); }
    forall d | d != c ensures Untouched(w, v, d) { }
  }

  lemma SpawnKeepsPeace(w: World, turnId: TurnId, c: ContainerId)
    requires Peace(w)
    ensures Peace(Step(w, SpawnReturns(turnId, c)))
  {
    if turnId in w.starts && w.starts[turnId].spawned.None? && Spawnable(w, w.starts[turnId].key, c) {
      if OnSpawned(w.host, w.starts[turnId].key, c).1 {
        var key := w.starts[turnId].key;
        CachedIsReady(w, turnId, c);
        assert Disciplined(w, c) && TurnOk(w, key) && StartOk(w, turnId);
        BindKeepsPeace(w, CachedReady(w, turnId), turnId, key, c);
      } else {
        NewSpawnKeepsPeace(w, turnId, c);
      }
    }
  }

  lemma AttachKeepsPeace(w: World, turnId: TurnId)
    requires Peace(w)
    ensures Peace(Step(w, AttachReturns(turnId)))
  {
    if turnId in w.starts && w.starts[turnId].spawned.Some? {
      var key, c := w.starts[turnId].key, w.starts[turnId].spawned.value;
      AttachedIsReady(w, turnId);
      assert StartsCalm(w, turnId) && StartOk(w, turnId);
      var u := AttachReady(w, turnId);
      forall d | d in w.containers && d != c ensures Remembered(u, d) == Remembered(w, d) {
        assert ContainerOk(w, d);
      }
      BindKeepsPeace(w, u, turnId, key, c);
    }
  }

  lemma StreamClosesKeepsPeace(w: World, c: ContainerId)
    requires Peace(w) && QuietStep(w, StreamCloses(c))
    ensures Peace(Step(w, StreamCloses(c)))
  {
    var v := Step(w, StreamCloses(c));
    StreamClosesKeepsInv(w, c);
    forall t ensures StartsCalm(v, t) { assert StartsCalm(w, t); }
    forall d ensures Untouched(w, v, d) || (Disciplined(v, d) && IdsKnown(v, d)) {
      assert IdsKnown(w, d) && Disciplined(w, d) && ContainerOk(w, d);
    }
    StepPeace(w, v);
  }

  lemma HostRestartsKeepsPeace(w: World)
    requires Peace(w) && AllCalm(w)
    ensures Peace(Step(w, HostRestarts))
  {
    var v := Step(w, HostRestarts);
    HostRestartsKeepsInv(w);
    forall d ensures Disciplined(v, d) && IdsKnown(v, d) {
      assert IdsKnown(w, d);
    }
    StepPeace(w, v);
  }

  // ---------------------------------------------------------------------------------------------
  // Steps inside one container
  // ---------------------------------------------------------------------------------------------

  lemma InsideKeepsPeace(w: World, v: World, c: ContainerId)
    requires Peace(w) && Inv(v) && c in w.containers && c in v.containers
    requires v == w.(containers := w.containers[c := v.containers[c]], handled := v.handled)
    requires v.containers[c].owner == w.containers[c].owner
    requires Disciplined(v, c) && IdsKnown(v, c) && Isolated(v)
    requires Calm(w.containers[c]) ==> Calm(v.containers[c])
    ensures Peace(v)
  {
    forall t ensures StartsCalm(v, t) { assert StartsCalm(w, t); }
    forall d ensures Untouched(w, v, d) || (Disciplined(v, d) && IdsKnown(v, d)) { }
    StepPeace(w, v);
  }

  lemma LostKeepsPeace(w: World, e: Event)
    requires Peace(w) && (e.Dies? || e.OutputLost? || e.InputLost?)
    ensures Peace(Step(w, e))
  {
    var v := Step(w, e);
    var c := e.container;
    StepKeepsInv(w, e);
    if v != w {
      assert Disciplined(w, c) && IdsKnown(w, c) && TurnOk(w, w.containers[c].owner);
      InsideKeepsPeace(w, v, c);
    }
  }

  lemma RestThroughCommand(x: Container, remembered: Option<ChatId>, ok: bool, cancelled: bool)
    requires AtRest(x, remembered) && x.inbox != []
    ensures AtRest(AfterCommand(x, ok, cancelled), remembered) && !x.inbox[0].Prompt?
  {
    assert x.inbox[0] in x.inbox;
  }

  lemma SwitchThroughCommand(x: Container, t: Turn, remembered: Option<ChatId>, ok: bool, cancelled: bool)
    requires Switching(x, t, remembered) && x.inbox != []
    ensures Switching(AfterCommand(x, ok, cancelled), t, remembered) && !x.inbox[0].Prompt?
  {
    if !x.inbox[0].Abort? {
      var p, y := Pending(x.inbox), AfterCommand(x, ok, cancelled);
      assert p[0] == x.inbox[0] && p[1..] == Pending(x.inbox[1..]);
      AnswersAppend(x.outbox, SwitchResponse(Some(p[0].turnId), ok, cancelled));
      var a := Answers(y.outbox);
      assert a == Answers(x.outbox) + [SwitchResponse(Some(p[0].turnId), ok, cancelled)];
      if |p| == 1 {
        assert a[..|a| - 1] == Answers(x.outbox);
        assert SwitchAnswered(y, t, remembered);
      } else {
        assert SwitchAsked(y, t, remembered);
      }
    }
  }

  lemma PromptThroughCommand(x: Container, t: Turn, text: string, remembered: Option<ChatId>, ok: bool, cancelled: bool)
    requires Prompted(x, t, text, remembered) && x.inbox != []
    ensures Prompted(AfterCommand(x, ok, cancelled), t, text, remembered)
    ensures x.inbox[0].Prompt? ==> x.inbox[0] == Prompt(t.turnId, text) && x.session == Some(t.chat)
  {
    if !x.inbox[0].Abort? {
      assert Pending(x.inbox)[0] == x.inbox[0] && Pending(x.inbox)[1..] == Pending(x.inbox[1..]);
      AnswersAppend(x.outbox, PromptResponse(t.turnId, ok));
    }
  }

  lemma CommandIdsKnown(w: World, c: ContainerId, ok: bool, cancelled: bool)
    requires IdsKnown(w, c) && c in w.containers && w.containers[c].inbox != []
    ensures IdsKnown(PiHandled(w, c, ok, cancelled), c)
    ensures Calm(w.containers[c]) ==> Calm(AfterCommand(w.containers[c], ok, cancelled))
  {
    var x := w.containers[c];
    assert x.inbox[0] in x.inbox;
    assert forall p :: p in x.inbox[1..] ==> p in x.inbox;
  }

  lemma PiHandlesKeepsPeace(w: World, c: ContainerId, ok: bool, cancelled: bool)
    requires Peace(w)
    ensures Peace(Step(w, PiHandles(c, ok, cancelled)))
  {
    var v := Step(w, PiHandles(c, ok, cancelled));
    if c in w.containers && w.containers[c].alive && w.containers[c].inbox != [] {
      var x := w.containers[c];
      StepKeepsInv(w, PiHandles(c, ok, cancelled));
      assert Disciplined(w, c) && IdsKnown(w, c) && TurnOk(w, x.owner);
      CommandIdsKnown(w, c, ok, cancelled);
      if BoundTo(w, x.owner, c) {
        var t := w.host.activeTurns[x.owner];
        if Switching(x, t, Remembered(w, c)) {
          SwitchThroughCommand(x, t, Remembered(w, c), ok, cancelled);
        } else {
          PromptThroughCommand(x, t, w.commands[t.turnId].text, Remembered(w, c), ok, cancelled);
        }
      } else {
        RestThroughCommand(x, Remembered(w, c), ok, cancelled);
      }
      InsideKeepsPeace(w, v, c);
    }
  }

  lemma PiEmitsKeepsPeace(w: World, c: ContainerId, line: Line)
    requires Peace(w)
    ensures Peace(Step(w, PiEmits(c, line)))
  {
    var v := Step(w, PiEmits(c, line));
    if v != w {
      StepKeepsInv(w, PiEmits(c, line));
      AnswersAppend(w.containers[c].outbox, line);
      assert Disciplined(w, c) && IdsKnown(w, c) && TurnOk(w, w.containers[c].owner);
      InsideKeepsPeace(w, v, c);
    }
  }

  // ---------------------------------------------------------------------------------------------
  // A line is read
  // ---------------------------------------------------------------------------------------------

  lemma PoppedAnswers(x: Container)
    requires x.outbox != []
    ensures Answers(x.outbox) == if Noise(x.outbox[0]) then Answers(Popped(x).outbox) else [x.outbox[0]] + Answers(Popped(x).outbox)
    ensures !Noise(x.outbox[0]) ==>
              |Answers(x.outbox)| >= 1 && Answers(x.outbox)[0] == x.outbox[0] && Answers(x.outbox)[1..] == Answers(Popped(x).outbox)
  {
  }

  lemma PoppedIdsKnown(w: World, v: World, c: ContainerId)
    requires IdsKnown(w, c) && c in w.containers && w.containers[c].outbox != [] && w.sent <= v.sent
    requires c in v.containers && v.containers[c].outbox == w.containers[c].outbox[1..]
    requires v.containers[c].inbox == w.containers[c].inbox
             || exists p :: KnownCommand(v.sent, p) && v.containers[c].inbox == w.containers[c].inbox + [p]
    ensures IdsKnown(v, c)
  {
    assert forall l :: l in w.containers[c].outbox[1..] ==> l in w.containers[c].outbox;
  }

  /** A stale or empty word while the switch of `t` is under way: nothing changes but that it is read. */
  lemma SwitchThroughLine(x: Container, t: Turn, remembered: Option<ChatId>)
    requires Switching(x, t, remembered) && x.outbox != [] && !About(x.outbox[0], t.turnId)
    ensures Switching(Popped(x), t, remembered)
  {
    PoppedAnswers(x);
    var a, b := Answers(x.outbox), Answers(Popped(x).outbox);
    if SwitchAsked(x, t, remembered) {
      assert NoneAbout(b, t.turnId);
    } else if !Noise(x.outbox[0]) {
      assert b == a[1..] && b[|b| - 1] == a[|a| - 1];
      assert b[..|b| - 1] == a[..|a| - 1][1..];
    }
  }

  /** The answer to the switch itself is the only one left, and pi is calm. */
  lemma SwitchIsAnswered(x: Container, t: Turn, remembered: Option<ChatId>)
    requires Switching(x, t, remembered) && x.outbox != [] && About(x.outbox[0], t.turnId)
    ensures SwitchAnswered(x, t, remembered) && Answers(x.outbox) == [x.outbox[0]] && x.outbox[0].SwitchResponse?
    ensures Calm(x) && Answers(Popped(x).outbox) == [] && Pending(x.inbox) == []
  {
    PoppedAnswers(x);
    PendingIsInbox(x.inbox);
    var a := Answers(x.outbox);
    forall i | 0 <= i < |a| - 1 ensures !About(a[i], t.turnId) {
      assert SwitchAnswered(x, t, remembered) ==> !About(a[..|a| - 1][i], t.turnId);
    }
    assert a[0] == x.outbox[0];
    forall p | p in x.inbox ensures !p.Prompt? {
      assert p !in Pending(x.inbox);
    }
  }

  lemma SwitchingIsCalm(x: Container, t: Turn, remembered: Option<ChatId>)
    requires Switching(x, t, remembered)
    ensures Calm(x)
  {
    PendingIsInbox(x.inbox);
    forall p | p in x.inbox ensures !p.Prompt? {
      if !p.Abort? { assert p in Pending(x.inbox); }
    }
  }

  /** What reading a line does to the container it came from. */
  lemma LineDisciplines(w: World, c: ContainerId)
    requires Inv(w) && Disciplined(w, c) && IdsKnown(w, c)
    requires c in w.attached && c in w.containers && w.containers[c].outbox != []
    requires ContainerOk(w, c) && TurnOk(w, w.containers[c].owner) && AttachmentOk(w, w.containers[c].owner)
    ensures Disciplined(Step(w, LineArrives(c)), c)
  {
    var x := w.containers[c];
    PoppedAnswers(x);
    if BoundTo(w, x.owner, c) {
      var t := w.host.activeTurns[x.owner];
      if Switching(x, t, Remembered(w, c)) {
        SwitchLineDisciplines(w, c);
      } else {
        PromptLineDisciplines(w, c);
      }
    }
  }

  lemma SwitchLineDisciplines(w: World, c: ContainerId)
    requires c in w.attached && c in w.containers && w.containers[c].outbox != [] && IdsKnown(w, c)
    requires BoundTo(w, w.containers[c].owner, c) && ContainerOk(w, c)
    requires TurnOk(w, w.containers[c].owner) && AttachmentOk(w, w.containers[c].owner)
    requires Switching(w.containers[c], w.host.activeTurns[w.containers[c].owner], Remembered(w, c))
    ensures Disciplined(Step(w, LineArrives(c)), c)
  {
    var x := w.containers[c];
    var t := w.host.activeTurns[x.owner];
    var v := Step(w, LineArrives(c));
    var line := x.outbox[0];
    assert line in x.outbox;
    SwitchingIsCalm(x, t, Remembered(w, c));
    if About(line, t.turnId) {
      SwitchIsAnswered(x, t, Remembered(w, c));
      PendingAppend(x.inbox, Prompt(t.turnId, w.commands[t.turnId].text));
    } else {
      SwitchThroughLine(x, t, Remembered(w, c));
      if line.AgentSettled? && Remembered(w, c).Some? {
        PoppedAnswers(x);
      }
    }
  }

  lemma PromptLineDisciplines(w: World, c: ContainerId)
    requires c in w.attached && c in w.containers && w.containers[c].outbox != []
    requires BoundTo(w, w.containers[c].owner, c) && ContainerOk(w, c)
    requires TurnOk(w, w.containers[c].owner) && AttachmentOk(w, w.containers[c].owner)
    requires var t := w.host.activeTurns[w.containers[c].owner];
             t.turnId in w.commands && Prompted(w.containers[c], t, w.commands[t.turnId].text, Remembered(w, c))
    ensures Disciplined(Step(w, LineArrives(c)), c)
  {
    PoppedAnswers(w.containers[c]);
    PendingIsInbox(w.containers[c].inbox);
  }

  lemma LineArrivesKeepsPeace(w: World, c: ContainerId)
    requires Peace(w)
    ensures Peace(Step(w, LineArrives(c)))
  {
    if c in w.attached && c in w.containers && w.containers[c].outbox != [] {
      var v := Step(w, LineArrives(c));
      var key := w.containers[c].owner;
      LineArrivesKeepsInv(w, c);
      assert Disciplined(w, c) && IdsKnown(w, c) && ContainerOk(w, c) && TurnOk(w, key) && AttachmentOk(w, key);
      LineDisciplines(w, c);
      LineElsewhere(w, v, c);
      StepPeace(w, v);
    }
  }

  lemma LineElsewhere(w: World, v: World, c: ContainerId)
    requires Peace(w) && v == Step(w, LineArrives(c))
    requires c in w.attached && c in w.containers && w.containers[c].outbox != []
    requires ContainerOk(w, c) && TurnOk(w, w.containers[c].owner) && AttachmentOk(w, w.containers[c].owner)
    ensures Recorded(w, v) && Isolated(v) && IdsKnown(v, c)
    ensures forall d :: d != c ==> Untouched(w, v, d)
    ensures forall t :: StartsCalm(v, t)
  {
    assert IdsKnown(w, c);
    PoppedIdsKnown(w, v, c);
    forall t ensures StartsCalm(v, t) { assert StartsCalm(w, t) && StartOk(w, t); }
    forall d | d != c ensures Untouched(w, v, d) { assert ContainerOk(w, d); }
  }

  /** Every quiet step keeps the peace. */
  lemma StepKeepsPeace(w: World, e: Event)
    requires Peace(w) && QuietStep(w, e)
    ensures Peace(Step(w, e))
  {
    match e
    case StartTurn(key, turnId, chat, text) => StartTurnKeepsPeace(w, key, turnId, chat, text);
    case SpawnReturns(turnId, c) => SpawnKeepsPeace(w, turnId, c);
    case StartFails(turnId) => StartFailsKeepsPeace(w, turnId);
    case AttachReturns(turnId) => AttachKeepsPeace(w, turnId);
    case StopTurn(principal, admin, turnId) => StopTurnKeepsPeace(w, principal, admin, turnId);
    case PiHandles(c, ok, cancelled) => PiHandlesKeepsPeace(w, c, ok, cancelled);
    case PiEmits(c, line) => PiEmitsKeepsPeace(w, c, line);
    case LineArrives(c) => LineArrivesKeepsPeace(w, c);
    case StreamCloses(c) => StreamClosesKeepsPeace(w, c);
    case HostRestarts => HostRestartsKeepsPeace(w);
    case _ => LostKeepsPeace(w, e);
  }
}

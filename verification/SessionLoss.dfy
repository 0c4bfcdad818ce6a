/** Exactly which losses of a stream or of agent-host cost session isolation: those that leave pi running
    a prompt, or with one to take up. Nothing ties pi's `agent_settled` to a Turn, so the end of such a
    prompt can pass for the end of a later Turn whose session switch is still under way. */
module SessionLoss {
  import opened Wrappers
  import opened AgentHost
  import opened TurnWorld
  import opened PiDiscipline
  import opened TurnProperties

  // ---------------------------------------------------------------------------------------------
  // Runs without any further loss
  // ---------------------------------------------------------------------------------------------

  predicate Loses(e: Event) {
    e.StreamCloses? || e.HostRestarts?
  }

  predicate NoLoss(events: seq<Event>) {
    forall i :: 0 <= i < |events| ==> !Loses(events[i])
  }

  ghost predicate Leads(w: World, v: World) {
    exists events :: NoLoss(events) && Run(w, events) == v
  }

  lemma LeadsNowhere(w: World)
    ensures Leads(w, w)
  {
    assert NoLoss([]) && Run(w, []) == w;
  }

  lemma {:induction false} RunThen(w: World, events: seq<Event>, e: Event)
    ensures Run(w, events + [e]) == Step(Run(w, events), e)
    decreases |events|
  {
    if events == [] {
      assert [] + [e] == [e] && [e][1..] == [];
      assert Run(w, [e]) == Run(Step(w, e), []);
    } else {
      assert (events + [e])[1..] == events[1..] + [e];
      RunThen(Step(w, events[0]), events[1..], e);
    }
  }

  lemma LeadsOn(w: World, v: World, e: Event)
    requires Leads(w, v) && !Loses(e)
    ensures Leads(w, Step(v, e))
  {
    var events :| NoLoss(events) && Run(w, events) == v;
    RunThen(w, events, e);
    assert NoLoss(events + [e]);
  }

  lemma {:induction false} NoLossIsQuiet(w: World, events: seq<Event>)
    requires NoLoss(events)
    ensures QuietRun(w, events)
    decreases |events|
  {
    if events != [] {
      assert !Loses(events[0]);
      assert forall i :: 0 <= i < |events[1..]| ==> events[1..][i] == events[i + 1];
      NoLossIsQuiet(Step(w, events[0]), events[1..]);
    }
  }

  // ---------------------------------------------------------------------------------------------
  // Ids nobody used
  // ---------------------------------------------------------------------------------------------

  lemma {:induction false} LengthBound(used: set<string>) returns (n: nat)
    ensures forall s :: s in used ==> |s| < n
    decreases |used|
  {
    if used == {} {
      n := 0;
    } else {
      var s :| s in used;
      var m := LengthBound(used - {s});
      n := if |s| < m then m else |s| + 1;
      assert forall t :: t in used ==> t == s || t in used - {s};
    }
  }

  lemma FreshId(used: set<string>) returns (id: string)
    ensures id !in used
  {
    var n := LengthBound(used);
    id := seq(n, _ => 'x');
    assert |id| == n;
  }

  // ---------------------------------------------------------------------------------------------
  // One resident and its container
  // ---------------------------------------------------------------------------------------------

  /** The container of `key`, its Turn and its attachment. */
  ghost predicate At(w: World, c: ContainerId, turn: Option<Turn>, chat: Option<Option<ChatId>>, x: Container) {
    && c in w.containers && w.containers[c] == x && x.alive && c !in w.replaced
    && (x.owner in w.host.activeTurns <==> turn.Some?)
    && (turn.Some? ==> w.host.activeTurns[x.owner] == turn.value)
    && (x.owner in w.host.attachments <==> chat.Some?)
    && (chat.Some? ==> w.host.attachments[x.owner] == Attachment(c, chat.value))
    && (c in w.host.openIo <==> chat.Some?) && (c in w.attached <==> chat.Some?)
  }

  function Reserved(turnId: TurnId, chat: ChatId): Turn {
    Turn(turnId, chat, None, false, None, None)
  }

  lemma Starts(w: World, c: ContainerId, chat: Option<Option<ChatId>>, x: Container, id: TurnId, to: ChatId)
    requires At(w, c, None, chat, x) && id !in w.commands
    ensures var v := Step(w, StartTurn(x.owner, id, to, ""));
            && At(v, c, Some(Reserved(id, to)), chat, x) && v.commands == w.commands[id := StartTurnCommand(x.owner, to, "")]
            && id in v.starts && v.starts[id] == Start(x.owner, "", None) && v.handled == w.handled
  {
  }

  /** The supervisor answers with the container the host is not attached to. */
  lemma SpawnsAndAttaches(w: World, c: ContainerId, x: Container, id: TurnId, to: ChatId)
    requires At(w, c, Some(Reserved(id, to)), None, x) && SafeChatId(to)
    requires id in w.starts && w.starts[id] == Start(x.owner, "", None)
    ensures var v := Step(Step(w, SpawnReturns(id, c)), AttachReturns(id));
            && At(v, c, Some(Turn(id, to, Some(c), false, Some(id), Some(""))), Some(None),
                  x.(inbox := x.inbox + [SwitchSession(id, to)]))
            && v.commands == w.commands && v.handled == w.handled
  {
    var u := Step(w, SpawnReturns(id, c));
    assert u == w.(starts := w.starts[id := Start(x.owner, "", Some(c))]);
    assert OnAttached(u.host, x.owner, c).attachments[x.owner] == Attachment(c, None);
  }

  /** The supervisor answers with the container the host is attached to. */
  lemma SpawnsAgain(w: World, c: ContainerId, known: ChatId, x: Container, id: TurnId, to: ChatId)
    requires At(w, c, Some(Reserved(id, to)), Some(Some(known)), x) && SafeChatId(to)
    requires id in w.starts && w.starts[id] == Start(x.owner, "", None)
    ensures var v := Step(w, SpawnReturns(id, c));
            && At(v, c, Some(if known == to then Turn(id, to, Some(c), false, None, None)
                             else Turn(id, to, Some(c), false, Some(id), Some(""))), Some(Some(known)),
                  x.(inbox := x.inbox + [if known == to then Prompt(id, "") else SwitchSession(id, to)]))
            && v.commands == w.commands && v.handled == w.handled
  {
  }

  lemma PiTakesSwitch(w: World, c: ContainerId, turn: Option<Turn>, chat: Option<Option<ChatId>>, x: Container, id: TurnId, to: ChatId)
    requires At(w, c, turn, chat, x) && x.inbox != [] && x.inbox[0] == SwitchSession(id, to)
    ensures var v := Step(w, PiHandles(c, true, false));
            && At(v, c, turn, chat, x.(inbox := x.inbox[1..], session := Some(to),
                                       outbox := x.outbox + [SwitchResponse(Some(id), true, false)]))
            && v.commands == w.commands && v.handled == w.handled
  {
  }

  lemma PiTakesPrompt(w: World, c: ContainerId, turn: Option<Turn>, chat: Option<Option<ChatId>>, x: Container, id: TurnId)
    requires At(w, c, turn, chat, x) && x.inbox != [] && x.inbox[0] == Prompt(id, "")
    ensures var v := Step(w, PiHandles(c, true, false));
            && At(v, c, turn, chat, x.(inbox := x.inbox[1..], running := true,
                                       outbox := x.outbox + [PromptResponse(id, !x.running)]))
            && v.commands == w.commands && v.handled == w.handled + [Handled(id, "", x.session)]
  {
  }

  lemma PromptSettles(w: World, c: ContainerId, turn: Option<Turn>, chat: Option<Option<ChatId>>, x: Container)
    requires At(w, c, turn, chat, x) && x.running
    ensures var v := Step(w, PiEmits(c, AgentSettled));
            && At(v, c, turn, chat, x.(running := false, outbox := x.outbox + [AgentSettled]))
            && v.commands == w.commands && v.handled == w.handled
  {
  }

  lemma SwitchIsConfirmed(w: World, c: ContainerId, known: Option<ChatId>, x: Container, id: TurnId, to: ChatId)
    requires At(w, c, Some(Turn(id, to, Some(c), false, Some(id), Some(""))), Some(known), x)
    requires x.outbox == [SwitchResponse(Some(id), true, false)]
    ensures var v := Step(w, LineArrives(c));
            && At(v, c, Some(Turn(id, to, Some(c), false, None, None)), Some(Some(to)),
                  x.(inbox := x.inbox + [Prompt(id, "")], outbox := []))
            && v.commands == w.commands && v.handled == w.handled
  {
  }

  lemma LineEndsTurn(w: World, c: ContainerId, turn: Turn, chat: Option<ChatId>, x: Container)
    requires At(w, c, Some(turn), Some(chat), x) && turn.containerId == Some(c)
    requires x.outbox == [PromptResponse(turn.turnId, false)] || x.outbox == [AgentSettled]
    ensures var v := Step(w, LineArrives(c));
            && At(v, c, None, Some(chat), x.(outbox := []))
            && v.commands == w.commands && v.handled == w.handled
  {
  }

  // ---------------------------------------------------------------------------------------------
  // The run that fails
  // ---------------------------------------------------------------------------------------------

  /** pi takes up what it was left with, and is running a prompt then. */
  lemma {:induction false} PiIsLeftRunning(o: World, w: World, c: ContainerId, x: Container) returns (v: World, y: Container)
    requires Leads(o, w) && At(w, c, None, None, x) && !Calm(x)
    ensures Leads(o, v) && At(v, c, None, None, y) && y.owner == x.owner && y.running && y.inbox == [] && y.outbox == []
    ensures v.commands == w.commands
    decreases |x.inbox|
  {
    if x.inbox == [] {
      LeadsOn(o, w, OutputLost(c, 0, |x.outbox|));
      v := Step(w, OutputLost(c, 0, |x.outbox|));
      y := x.(outbox := []);
      assert x.outbox[..0] + x.outbox[|x.outbox|..] == [];
    } else {
      LeadsOn(o, w, PiHandles(c, true, false));
      var u := Step(w, PiHandles(c, true, false));
      var z := AfterCommand(x, true, false);
      assert x.inbox == [x.inbox[0]] + x.inbox[1..];
      v, y := PiIsLeftRunning(o, u, c, z);
    }
  }

  const HERE: ChatId := "a"
  const THERE: ChatId := "b"

  /** A first Turn: its switch is confirmed, its prompt refused because pi is still running. */
  lemma FirstTurn(o: World, w: World, c: ContainerId, x: Container, id: TurnId) returns (v: World)
    requires Leads(o, w) && At(w, c, None, None, x) && x.running && x.inbox == [] && x.outbox == [] && id !in w.commands
    ensures Leads(o, v) && At(v, c, None, Some(Some(HERE)), x.(session := Some(HERE)))
    ensures v.commands.Keys == w.commands.Keys + {id}
  {
    Starts(w, c, None, x, id, HERE);
    var w1 := Step(w, StartTurn(x.owner, id, HERE, ""));
    LeadsOn(o, w, StartTurn(x.owner, id, HERE, ""));
    SpawnsAndAttaches(w1, c, x, id, HERE);
    var w2 := Step(w1, SpawnReturns(id, c));
    LeadsOn(o, w1, SpawnReturns(id, c));
    var w3 := Step(w2, AttachReturns(id));
    LeadsOn(o, w2, AttachReturns(id));
    v := SwitchedAndRefused(o, w3, c, x, id);
  }

  lemma SwitchedAndRefused(o: World, w: World, c: ContainerId, x: Container, id: TurnId) returns (v: World)
    requires Leads(o, w) && x.running && x.inbox == [] && x.outbox == []
    requires At(w, c, Some(Turn(id, HERE, Some(c), false, Some(id), Some(""))), Some(None),
                x.(inbox := x.inbox + [SwitchSession(id, HERE)]))
    ensures Leads(o, v) && At(v, c, None, Some(Some(HERE)), x.(session := Some(HERE)))
    ensures v.commands == w.commands
  {
    var turn := Turn(id, HERE, Some(c), false, None, None);
    var y := x.(session := Some(HERE));
    PiTakesSwitch(w, c, Some(turn.(pendingSwitch := Some(id), pendingPrompt := Some(""))), Some(None),
                  x.(inbox := x.inbox + [SwitchSession(id, HERE)]), id, HERE);
    var w1 := Step(w, PiHandles(c, true, false));
    LeadsOn(o, w, PiHandles(c, true, false));
    SwitchIsConfirmed(w1, c, None, y.(outbox := [SwitchResponse(Some(id), true, false)]), id, HERE);
    var w2 := Step(w1, LineArrives(c));
    LeadsOn(o, w1, LineArrives(c));
    PiTakesPrompt(w2, c, Some(turn), Some(Some(HERE)), y.(inbox := [Prompt(id, "")]), id);
    var w3 := Step(w2, PiHandles(c, true, false));
    LeadsOn(o, w2, PiHandles(c, true, false));
    LineEndsTurn(w3, c, turn, Some(HERE), y.(outbox := [PromptResponse(id, false)]));
    v := Step(w3, LineArrives(c));
    LeadsOn(o, w3, LineArrives(c));
  }

  /** A second Turn, of another chat: the old prompt settles and ends it while its switch is under way. */
  lemma SecondTurn(o: World, w: World, c: ContainerId, x: Container, id: TurnId) returns (v: World)
    requires Leads(o, w) && At(w, c, None, Some(Some(HERE)), x) && x.running && x.inbox == [] && x.outbox == [] && id !in w.commands
    ensures Leads(o, v)
    ensures At(v, c, None, Some(Some(HERE)), x.(running := false, inbox := [SwitchSession(id, THERE)]))
    ensures v.commands.Keys == w.commands.Keys + {id}
  {
    Starts(w, c, Some(Some(HERE)), x, id, THERE);
    var w1 := Step(w, StartTurn(x.owner, id, THERE, ""));
    LeadsOn(o, w, StartTurn(x.owner, id, THERE, ""));
    SpawnsAgain(w1, c, HERE, x, id, THERE);
    var w2 := Step(w1, SpawnReturns(id, c));
    LeadsOn(o, w1, SpawnReturns(id, c));
    var turn := Turn(id, THERE, Some(c), false, Some(id), Some(""));
    var y := x.(running := false, inbox := [SwitchSession(id, THERE)]);
    LeadsOn(o, w2, PiEmits(c, AgentSettled));
    var w3 := Step(w2, PiEmits(c, AgentSettled));
    PromptSettles(w2, c, Some(turn), Some(Some(HERE)), x.(inbox := x.inbox + [SwitchSession(id, THERE)]));
    assert x.outbox + [AgentSettled] == [AgentSettled] && x.inbox + [SwitchSession(id, THERE)] == [SwitchSession(id, THERE)];
    LineEndsTurn(w3, c, turn, Some(HERE), y.(outbox := [AgentSettled]));
    v := Step(w3, LineArrives(c));
    LeadsOn(o, w3, LineArrives(c));
  }

  /** A third Turn, of the first chat: its prompt is written without a switch, behind the one under way. */
  lemma ThirdTurn(o: World, w: World, c: ContainerId, x: Container, second: TurnId, id: TurnId) returns (v: World)
    requires Leads(o, w) && At(w, c, None, Some(Some(HERE)), x)
    requires x.inbox == [SwitchSession(second, THERE)] && id !in w.commands
    ensures Leads(o, v) && !Isolated(v)
  {
    Starts(w, c, Some(Some(HERE)), x, id, HERE);
    var w1 := Step(w, StartTurn(x.owner, id, HERE, ""));
    LeadsOn(o, w, StartTurn(x.owner, id, HERE, ""));
    SpawnsAgain(w1, c, HERE, x, id, HERE);
    var w2 := Step(w1, SpawnReturns(id, c));
    LeadsOn(o, w1, SpawnReturns(id, c));
    var turn := Some(Turn(id, HERE, Some(c), false, None, None));
    var y := x.(inbox := x.inbox + [Prompt(id, "")]);
    PiTakesSwitch(w2, c, turn, Some(Some(HERE)), y, second, THERE);
    var w3 := Step(w2, PiHandles(c, true, false));
    LeadsOn(o, w2, PiHandles(c, true, false));
    var z := y.(inbox := y.inbox[1..], session := Some(THERE), outbox := y.outbox + [SwitchResponse(Some(second), true, false)]);
    assert z.inbox == [Prompt(id, "")];
    PiTakesPrompt(w3, c, turn, Some(Some(HERE)), z, id);
    v := Step(w3, PiHandles(c, true, false));
    LeadsOn(o, w3, PiHandles(c, true, false));
    assert v.handled[|w3.handled|] == Handled(id, "", Some(THERE));
  }

  /** Where pi is not calm and the host starts over with its container, isolation can fail without any
      further loss. */
  lemma UncalmCanMix(w: World, c: ContainerId)
    requires c in w.containers && At(w, c, None, None, w.containers[c]) && !Calm(w.containers[c])
    ensures exists events :: QuietRun(w, events) && !Isolated(Run(w, events))
  {
    LeadsNowhere(w);
    var w1, x := PiIsLeftRunning(w, w, c, w.containers[c]);
    var first := FreshId(w1.commands.Keys);
    var w2 := FirstTurn(w, w1, c, x, first);
    var second := FreshId(w2.commands.Keys);
    var y := x.(session := Some(HERE));
    var w3 := SecondTurn(w, w2, c, y, second);
    var third := FreshId(w3.commands.Keys);
    var v := ThirdTurn(w, w3, c, y.(running := false, inbox := [SwitchSession(second, THERE)]), second, third);
    var events :| NoLoss(events) && Run(w, events) == v;
    NoLossIsQuiet(w, events);
  }

  // ---------------------------------------------------------------------------------------------
  // Exactly when
  // ---------------------------------------------------------------------------------------------

  /** Isolation holds in every later run that loses nothing more on which pi is not calm. */
  ghost predicate IsolatedFromHere(w: World) {
    forall events :: QuietRun(w, events) ==> Isolated(Run(w, events))
  }

  lemma PeaceIsIsolatedFromHere(w: World)
    requires Peace(w)
    ensures IsolatedFromHere(w)
  {
    forall events | QuietRun(w, events) ensures Isolated(Run(w, events)) {
      RunKeepsPeace(w, events);
    }
  }

  /** A stream that ends costs isolation if and only if its container lives on and pi is running a prompt
      in it or has one to take up. */
  lemma StreamLossIsSafeIff(w: World, c: ContainerId)
    requires Peace(w)
    ensures IsolatedFromHere(Step(w, StreamCloses(c))) <==> QuietStep(w, StreamCloses(c))
  {
    if QuietStep(w, StreamCloses(c)) {
      StreamClosesKeepsPeace(w, c);
      PeaceIsIsolatedFromHere(Step(w, StreamCloses(c)));
    } else {
      var v := Step(w, StreamCloses(c));
      var key := w.containers[c].owner;
      assert ContainerOk(w, c) && Disciplined(w, c) && TurnOk(w, key);
      assert At(v, c, None, None, w.containers[c]);
      UncalmCanMix(v, c);
    }
  }

  /** A restart of agent-host costs isolation if and only if pi is so in some container that lives. */
  lemma RestartIsSafeIff(w: World)
    requires Peace(w)
    ensures IsolatedFromHere(Step(w, HostRestarts)) <==> AllCalm(w)
  {
    if AllCalm(w) {
      HostRestartsKeepsPeace(w);
      PeaceIsIsolatedFromHere(Step(w, HostRestarts));
    } else {
      var c :| c in w.containers && w.containers[c].alive && !Calm(w.containers[c]);
      var key := w.containers[c].owner;
      assert ContainerOk(w, c) && Disciplined(w, c) && TurnOk(w, key);
      assert BoundTo(w, key, c);
      UncalmCanMix(Step(w, HostRestarts), c);
    }
  }

  /** A new agent-host that finds containers of an earlier one keeps isolation from the start if and only
      if pi is calm in each that lives. */
  lemma StartIsSafeIff(w: World)
    requires Initial(w)
    ensures IsolatedFromHere(w) <==> AllCalm(w)
  {
    if AllCalm(w) {
      InitialPeace(w);
      PeaceIsIsolatedFromHere(w);
    } else {
      var c :| c in w.containers && w.containers[c].alive && !Calm(w.containers[c]);
      UncalmCanMix(w, c);
    }
  }
}

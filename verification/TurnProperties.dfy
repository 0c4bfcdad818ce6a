/** What agent-host promises about Turns, over every run of the world. */
module TurnProperties {
  import opened Wrappers
  import opened AgentHost
  import opened TurnWorld
  import opened PiDiscipline

  lemma {:induction false} RunKeepsInv(w: World, events: seq<Event>)
    requires Inv(w)
    ensures Inv(Run(w, events))
    decreases |events|
  {
    if events != [] {
      StepKeepsInv(w, events[0]);
      RunKeepsInv(Step(w, events[0]), events[1..]);
    }
  }

  lemma {:induction false} RunKeepsPeace(w: World, events: seq<Event>)
    requires Peace(w) && QuietRun(w, events)
    ensures Peace(Run(w, events))
    decreases |events|
  {
    if events != [] {
      StepKeepsPeace(w, events[0]);
      RunKeepsPeace(Step(w, events[0]), events[1..]);
    }
  }

  lemma InitialPeace(w: World)
    requires Initial(w) && AllCalm(w)
    ensures Peace(w)
  {
    InitialInv(w);
    forall c ensures Disciplined(w, c) { }
  }

  /** Two chats of one person never see each other's context: whenever pi takes up the prompt of a
      Turn, it is that Turn's prompt and that Turn's chat is loaded. In every run of a new agent-host, over
      containers left by an earlier one in any state and any session, with containers replaced, crashing
      and stopped at any point, streams lost and agent-host restarted, as long as pi is calm in a living
      container the host finds or loses. */
  lemma SessionsAreIsolated(w: World, events: seq<Event>)
    requires Initial(w) && AllCalm(w) && QuietRun(w, events)
    ensures Isolated(Run(w, events))
  {
    InitialPeace(w);
    RunKeepsPeace(w, events);
  }

  /** A Turn gets at most one terminal frame, and no other frame after it but "unknown". */
  lemma TurnsEndOnce(w: World, events: seq<Event>)
    requires Initial(w)
    ensures AtMostOneEnd(Run(w, events).frames)
  {
    InitialInv(w);
    RunKeepsInv(w, events);
  }

  predicate Active(w: World, key: ResidentKey, turnId: TurnId) {
    key in w.host.activeTurns && w.host.activeTurns[key].turnId == turnId
  }

  /** The Turn a container was given holds that container's stream as its resident's cached, open
      attachment. */
  lemma BoundTurnHasItsContainer(w: World, events: seq<Event>, key: ResidentKey)
    requires Initial(w)
    ensures var v := Run(w, events);
            key in v.host.activeTurns && v.host.activeTurns[key].containerId.Some? ==>
              && key in v.host.attachments
              && v.host.attachments[key].containerId == v.host.activeTurns[key].containerId.value
              && v.host.attachments[key].containerId in v.host.openIo
  {
    InitialInv(w);
    RunKeepsInv(w, events);
    var v := Run(w, events);
    assert TurnOk(v, key);
    if key in v.host.activeTurns && v.host.activeTurns[key].containerId.Some? {
      assert ContainerOk(v, v.host.activeTurns[key].containerId.value);
    }
  }

  /** The step reports the end of `turnId`. */
  ghost predicate Reports(w: World, v: World, turnId: TurnId) {
    |v.frames| == |w.frames| + 1 && Terminal(v.frames[|w.frames|]) && v.frames[|w.frames|].turnId == turnId
  }

  /** No Turn is dropped silently by a living agent-host: the step in which it stops being active is the
      step that reports its end. */
  lemma TurnLeavesWithItsEnd(w: World, e: Event, key: ResidentKey, turnId: TurnId)
    requires Inv(w) && Active(w, key, turnId) && !Active(Step(w, e), key, turnId)
    ensures Reports(w, Step(w, e), turnId) <==> e != HostRestarts
  {
    assert TurnOk(w, key);
    if e.SpawnReturns? || e.AttachReturns? || e.StartFails? {
      TurnLeavesDuringStart(w, e, key, turnId);
    } else if e.LineArrives? {
      assert e.container in w.containers;
      TurnLeavesByLine(w, e.container, key, turnId);
    } else if !e.HostRestarts? {
      TurnLeavesElsewhere(w, e, key, turnId);
    }
  }

  lemma TurnLeavesByLine(w: World, c: ContainerId, key: ResidentKey, turnId: TurnId)
    requires c in w.containers && Active(w, key, turnId) && !Active(Step(w, LineArrives(c)), key, turnId)
    ensures Reports(w, Step(w, LineArrives(c)), turnId)
  {
    var x := w.containers[c];
    LineEndsWithFrame(w.host, x.owner, c, x.outbox[0], key, turnId);
    var u := w.(containers := w.containers[c := x.(outbox := x.outbox[1..])]);
    var r := OnLine(w.host, x.owner, c, x.outbox[0]);
    assert Step(w, LineArrives(c)) == React(u, r);
    assert React(u, r).frames == w.frames + r.frames;
  }

  lemma LineEndsWithFrame(h: HostState, owner: ResidentKey, c: ContainerId, line: Line, key: ResidentKey, turnId: TurnId)
    requires key in h.activeTurns && h.activeTurns[key].turnId == turnId
    requires var g := OnLine(h, owner, c, line).host; key !in g.activeTurns || g.activeTurns[key].turnId != turnId
    ensures var frames := OnLine(h, owner, c, line).frames; |frames| == 1 && Terminal(frames[0]) && frames[0].turnId == turnId
  {
  }

  lemma TurnLeavesElsewhere(w: World, e: Event, key: ResidentKey, turnId: TurnId)
    requires !e.SpawnReturns? && !e.AttachReturns? && !e.StartFails? && !e.LineArrives? && !e.HostRestarts?
    requires TurnOk(w, key) && Active(w, key, turnId) && !Active(Step(w, e), key, turnId)
    ensures Reports(w, Step(w, e), turnId)
  {
  }

  lemma TurnLeavesDuringStart(w: World, e: Event, key: ResidentKey, turnId: TurnId)
    requires Inv(w) && Active(w, key, turnId) && !Active(Step(w, e), key, turnId)
    requires e.SpawnReturns? || e.AttachReturns? || e.StartFails?
    ensures Reports(w, Step(w, e), turnId)
  {
    assert StartOk(w, e.turnId);
  }

  lemma NoStartUnderWay(w: World, key: ResidentKey, c: ContainerId)
    requires Inv(w) && BoundTo(w, key, c)
    ensures forall t :: t in w.starts ==> t in w.commands && w.commands[t].key == w.starts[t].key != key && Active(w, w.starts[t].key, t)
  {
    forall t | t in w.starts ensures t in w.commands && w.commands[t].key == w.starts[t].key != key && Active(w, w.starts[t].key, t) {
      assert StartOk(w, t);
    }
  }

  /** Once bound, only a line or the close of that very container can end a Turn. */
  lemma OnlyItsContainerEndsATurn(w: World, e: Event, key: ResidentKey, turnId: TurnId, c: ContainerId)
    requires Inv(w) && Active(w, key, turnId) && BoundTo(w, key, c)
    requires Reports(w, Step(w, e), turnId)
    ensures e == LineArrives(c) || e == StreamCloses(c)
  {
    assert TurnOk(w, key);
    NoStartUnderWay(w, key, c);
    if e.LineArrives? {
      assert e.container in w.containers && TurnOk(w, w.containers[e.container].owner);
      OnlyItsLineEndsATurn(w, e.container, key, turnId, c);
    } else if e.StreamCloses? {
      assert e.container in w.containers && TurnOk(w, w.containers[e.container].owner);
    }
  }

  lemma OnlyItsLineEndsATurn(w: World, d: ContainerId, key: ResidentKey, turnId: TurnId, c: ContainerId)
    requires d in w.containers && TurnOk(w, w.containers[d].owner) && TurnOk(w, key)
    requires Active(w, key, turnId) && BoundTo(w, key, c) && Reports(w, Step(w, LineArrives(d)), turnId)
    ensures d == c
  {
    var x := w.containers[d];
    var r := OnLine(w.host, x.owner, d, x.outbox[0]);
    assert Step(w, LineArrives(d)).frames == w.frames + r.frames;
  }

  /** The step adds `command` to what waits for the pi process of `c`. */
  predicate Writes(w: World, v: World, c: ContainerId, command: Command) {
    && c in w.containers && c in v.containers
    && |v.containers[c].inbox| == |w.containers[c].inbox| + 1
    && v.containers[c].inbox[|w.containers[c].inbox|] == command
  }

  /** A Turn's prompt is written at most once, and only into the container the Turn is bound to. */
  lemma PromptIsWrittenOnce(w: World, e: Event, c: ContainerId, turnId: TurnId, text: string)
    requires Inv(w) && Writes(w, Step(w, e), c, Prompt(turnId, text))
    ensures turnId !in w.written && turnId in Step(w, e).written
    ensures turnId in w.commands && text == w.commands[turnId].text
    ensures BoundTo(Step(w, e), w.containers[c].owner, c) && Active(Step(w, e), w.containers[c].owner, turnId)
  {
    if e.SpawnReturns? || e.AttachReturns? {
      PromptWrittenDuringStart(w, e, c, turnId, text);
    } else if e.LineArrives? {
      var k := w.containers[e.container].owner;
      assert TurnOk(w, k) && AttachmentOk(w, k) && ContainerOk(w, e.container);
    }
  }

  lemma PromptWrittenDuringStart(w: World, e: Event, c: ContainerId, turnId: TurnId, text: string)
    requires Inv(w) && Writes(w, Step(w, e), c, Prompt(turnId, text))
    requires e.SpawnReturns? || e.AttachReturns?
    ensures turnId !in w.written && turnId in Step(w, e).written
    ensures turnId in w.commands && text == w.commands[turnId].text
    ensures BoundTo(Step(w, e), w.containers[c].owner, c) && Active(Step(w, e), w.containers[c].owner, turnId)
  {
    assert StartOk(w, e.turnId);
    assert TurnOk(w, w.starts[e.turnId].key) && AttachmentOk(w, w.starts[e.turnId].key);
  }

  // ---------------------------------------------------------------------------------------------
  // Stopping before the prompt
  // ---------------------------------------------------------------------------------------------

  /** The stop of `turnId` overtook its prompt. */
  ghost predicate StoppedFirst(w: World, turnId: TurnId) {
    && turnId in w.commands && turnId !in w.written
    && (forall k :: Active(w, k, turnId) ==> w.host.activeTurns[k].stopRequested)
  }

  /** What may still be reported as the end of such a Turn. */
  ghost predicate EndsUnprompted(before: seq<Frame>, after: seq<Frame>, turnId: TurnId) {
    && before <= after
    && (forall i :: |before| <= i < |after| && Terminal(after[i]) && after[i].turnId == turnId ==>
          after[i] == TurnRejected(turnId) || after[i] == TurnEnded(turnId, Interrupted))
  }

  /** A `stopTurn` that finds its Turn before the prompt was written: spawn in flight or switch
      pending. */
  lemma StopOvertakes(w: World, principal: string, admin: bool, turnId: TurnId)
    requires Inv(w) && StopTarget(w.host, principal, admin, turnId).Some? && turnId !in w.written
    ensures StoppedFirst(Step(w, StopTurn(principal, admin, turnId)), turnId)
  {
    var key := StopTarget(w.host, principal, admin, turnId).value;
    assert TurnOk(w, key);
    forall k | Active(Step(w, StopTurn(principal, admin, turnId)), k, turnId) ensures k == key { assert TurnOk(w, k); }
  }

  lemma StoppedFirstStep(w: World, e: Event, turnId: TurnId)
    requires Inv(w) && StoppedFirst(w, turnId)
    ensures StoppedFirst(Step(w, e), turnId)
    ensures EndsUnprompted(w.frames, Step(w, e).frames, turnId)
  {
    if e.SpawnReturns? || e.AttachReturns? || e.StartFails? {
      StoppedDuringStart(w, e, turnId);
    } else if e.LineArrives? {
      StoppedDuringLine(w, e.container, turnId);
    } else {
      StoppedElsewhere(w, e, turnId);
    }
  }

  lemma StoppedElsewhere(w: World, e: Event, turnId: TurnId)
    requires StoppedFirst(w, turnId)
    requires !e.SpawnReturns? && !e.AttachReturns? && !e.StartFails? && !e.LineArrives?
    ensures StoppedFirst(Step(w, e), turnId)
    ensures EndsUnprompted(w.frames, Step(w, e).frames, turnId)
  {
    if e.StreamCloses? && e.container in w.containers {
      var h := w.host.(openIo := w.host.openIo - {e.container});
      var key := w.containers[e.container].owner;
      if key in w.host.activeTurns && w.host.activeTurns[key].turnId == turnId { assert Active(w, key, turnId); }
      StoppedReacts(w, w.(attached := w.attached - {e.container}), OnContainerClosed(h, key, e.container), turnId);
    } else if e.StopTurn? {
      StoppedReacts(w, w, OnStopTurn(w.host, e.principal, e.admin, e.turnId), turnId);
    } else {
      forall k | Active(Step(w, e), k, turnId) ensures Active(w, k, turnId) { }
    }
  }

  lemma StoppedDuringStart(w: World, e: Event, turnId: TurnId)
    requires Inv(w) && StoppedFirst(w, turnId) && (e.SpawnReturns? || e.AttachReturns? || e.StartFails?)
    ensures StoppedFirst(Step(w, e), turnId)
    ensures EndsUnprompted(w.frames, Step(w, e).frames, turnId)
  {
    match e
    case SpawnReturns(t, c) => StoppedDuringSpawn(w, t, c, turnId);
    case AttachReturns(t) => StoppedDuringAttach(w, t, turnId);
    case StartFails(t) =>
      forall k | Active(Step(w, e), k, turnId) ensures Active(w, k, turnId) && Step(w, e).host.activeTurns[k].stopRequested { }
  }

  /** What a reaction must keep for the stop of `turnId` to hold on. */
  ghost predicate SparesStopped(h: HostState, r: Reaction, turnId: TurnId) {
    && (forall k :: k in r.host.activeTurns && r.host.activeTurns[k].turnId == turnId ==>
          k in h.activeTurns && h.activeTurns[k].turnId == turnId
          && r.host.activeTurns[k].stopRequested == h.activeTurns[k].stopRequested)
    && (r.write.Some? && r.write.value.command.Prompt? ==> r.write.value.command.turnId != turnId)
    && (forall i :: 0 <= i < |r.frames| && Terminal(r.frames[i]) && r.frames[i].turnId == turnId ==>
          r.frames[i] == TurnRejected(turnId) || r.frames[i] == TurnEnded(turnId, Interrupted))
  }

  lemma StoppedReacts(w: World, u: World, r: Reaction, turnId: TurnId)
    requires StoppedFirst(w, turnId) && SparesStopped(w.host, r, turnId)
    requires u.frames == w.frames && u.written == w.written && u.commands == w.commands
    ensures StoppedFirst(React(u, r), turnId)
    ensures EndsUnprompted(w.frames, React(u, r).frames, turnId)
  {
    var v := React(u, r);
    assert v.host == r.host && v.frames == w.frames + r.frames;
    forall k | Active(v, k, turnId) ensures v.host.activeTurns[k].stopRequested {
      assert Active(w, k, turnId);
    }
  }

  lemma BoundSparesStopped(h: HostState, key: ResidentKey, text: string, turnId: TurnId)
    requires key in h.activeTurns && key in h.attachments
    requires h.activeTurns[key].turnId == turnId ==> h.activeTurns[key].stopRequested
    ensures SparesStopped(h, OnBound(h, key, text), turnId)
  {
  }

  lemma StoppedDuringSpawn(w: World, t: TurnId, c: ContainerId, turnId: TurnId)
    requires StoppedFirst(w, turnId)
    ensures StoppedFirst(Step(w, SpawnReturns(t, c)), turnId)
    ensures EndsUnprompted(w.frames, Step(w, SpawnReturns(t, c)).frames, turnId)
  {
    var v := Step(w, SpawnReturns(t, c));
    if v.host.activeTurns == w.host.activeTurns && v.frames == w.frames && v.written == w.written {
      forall k | Active(v, k, turnId) ensures v.host.activeTurns[k].stopRequested { assert Active(w, k, turnId); }
    } else {
      var key := w.starts[t].key;
      var u := if c in w.containers then w else w.(containers := w.containers[c := FreshContainer(key)]);
      if key in w.host.activeTurns && w.host.activeTurns[key].turnId == turnId { assert Active(w, key, turnId); }
      BoundSparesStopped(w.host, key, w.starts[t].text, turnId);
      StoppedReacts(w, u.(starts := u.starts - {t}), OnBound(w.host, key, w.starts[t].text), turnId);
    }
  }

  lemma StoppedDuringAttach(w: World, t: TurnId, turnId: TurnId)
    requires StoppedFirst(w, turnId)
    ensures StoppedFirst(Step(w, AttachReturns(t)), turnId)
    ensures EndsUnprompted(w.frames, Step(w, AttachReturns(t)).frames, turnId)
  {
    if t in w.starts && w.starts[t].spawned.Some? && w.starts[t].key in w.host.activeTurns {
      var key, c := w.starts[t].key, w.starts[t].spawned.value;
      var h := OnAttached(w.host, key, c);
      if w.host.activeTurns[key].turnId == turnId { assert Active(w, key, turnId); }
      BoundSparesStopped(h, key, w.starts[t].text, turnId);
      StoppedReacts(w, w.(starts := w.starts - {t}, attached := w.attached + {c}), OnBound(h, key, w.starts[t].text), turnId);
    }
  }

  lemma StoppedDuringLine(w: World, c: ContainerId, turnId: TurnId)
    requires StoppedFirst(w, turnId)
    ensures StoppedFirst(Step(w, LineArrives(c)), turnId)
    ensures EndsUnprompted(w.frames, Step(w, LineArrives(c)).frames, turnId)
  {
    if c in w.containers && c in w.attached && w.containers[c].outbox != [] {
      var x := w.containers[c];
      if x.owner in w.host.activeTurns && w.host.activeTurns[x.owner].turnId == turnId { assert Active(w, x.owner, turnId); }
      LineSparesStopped(w.host, x.owner, c, x.outbox[0], turnId);
      StoppedReacts(w, w.(containers := w.containers[c := Popped(x)]), OnLine(w.host, x.owner, c, x.outbox[0]), turnId);
    }
  }

  lemma LineSparesStopped(h: HostState, key: ResidentKey, c: ContainerId, line: Line, turnId: TurnId)
    requires key in h.activeTurns && h.activeTurns[key].turnId == turnId ==> h.activeTurns[key].stopRequested
    ensures SparesStopped(h, OnLine(h, key, c, line), turnId)
  {
  }

  lemma {:induction false} StoppedFirstRun(w: World, events: seq<Event>, turnId: TurnId)
    requires Inv(w) && StoppedFirst(w, turnId)
    ensures StoppedFirst(Run(w, events), turnId)
    ensures EndsUnprompted(w.frames, Run(w, events).frames, turnId)
    decreases |events|
  {
    if events != [] {
      var v := Step(w, events[0]);
      StepKeepsInv(w, events[0]);
      StoppedFirstStep(w, events[0], turnId);
      StoppedFirstRun(v, events[1..], turnId);
    }
  }

  /** A stop that finds its Turn before the prompt was written keeps pi from ever seeing that prompt;
      the Turn can only be rejected, or interrupted. */
  lemma StopBeforePromptIsFinal(w: World, principal: string, admin: bool, turnId: TurnId, after: seq<Event>)
    requires Inv(w) && StopTarget(w.host, principal, admin, turnId).Some? && turnId !in w.written
    ensures var v := Step(w, StopTurn(principal, admin, turnId));
            && turnId !in Run(v, after).written
            && EndsUnprompted(v.frames, Run(v, after).frames, turnId)
  {
    StopOvertakes(w, principal, admin, turnId);
    StepKeepsInv(w, StopTurn(principal, admin, turnId));
    StoppedFirstRun(Step(w, StopTurn(principal, admin, turnId)), after, turnId);
  }
}

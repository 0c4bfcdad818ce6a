/** What each operation of the docker gate does and answers, said on what the daemon listed, inspected
    and replied: which effect calls are made, in which order, and what a caller that stopped waiting
    leaves on record. */
module DockerEffects {
  import opened Wrappers
  import opened NetworkFailure
  import opened DockerTransport

  // ---------------------------------------------------------------------------------------------
  // One container
  // ---------------------------------------------------------------------------------------------

  /** A restart of a container that is no agent's makes exactly its one effect call; what follows is
      answered by how that call ended and by what a second look finds. */
  lemma RestartMakesItsCall(id: string, daemon: Daemon, c: Container)
    requires id != "" && daemon.inspect(0) == Ok(c) && AGENT_ROLE_LABEL !in c.labels
    ensures var op := ContainerRestart(Some(id));
            && Invoked(op, daemon).calls == [EffectCall(Restart, c.id, daemon.effect(0))]
            && (daemon.effect(0).Answered? && daemon.inspect(1).Ok? ==>
                  Finished(op, daemon) == Ok(Item(daemon.inspect(1).value)))
            && (daemon.effect(0).Answered? && daemon.inspect(1).Err? ==> Finished(op, daemon) == Err(OutcomeUnknown))
            && (daemon.effect(0).Failed? ==> Finished(op, daemon).Err?)
  {
  }

  /** It makes none if the container is not found or an agent's, and refuses in the latter case only. */
  lemma RestartMakesNoOther(id: Option<string>, daemon: Daemon)
    requires id.None? || id == Some("") || daemon.inspect(0).Err? || AGENT_ROLE_LABEL in daemon.inspect(0).value.labels
    ensures var op := ContainerRestart(id);
            && Invoked(op, daemon).calls == [] && Finished(op, daemon).Err?
            && (Finished(op, daemon) == Err(Refused) <==>
                  id.Some? && id.value != "" && daemon.inspect(0).Ok? && AGENT_ROLE_LABEL in daemon.inspect(0).value.labels)
  {
  }

  /** A read of one container answers what was read, and touches nothing. */
  lemma ReadsAnswer(id: string, daemon: Daemon, c: Container)
    requires id != "" && daemon.inspect(0) == Ok(c)
    ensures Invoked(ContainerInspect(Some(id)), daemon).calls == [] && Invoked(LogsTail(Some(id)), daemon).calls == []
    ensures Finished(ContainerInspect(Some(id)), daemon) == if AGENT_ROLE_LABEL in c.labels then Err(Refused) else Ok(Item(c))
    ensures AGENT_ROLE_LABEL in c.labels ==> Finished(LogsTail(Some(id)), daemon) == Err(Refused)
    ensures AGENT_ROLE_LABEL !in c.labels && daemon.logs.Ok? ==> Finished(LogsTail(Some(id)), daemon) == Ok(Text(daemon.logs.value))
  {
  }

  // ---------------------------------------------------------------------------------------------
  // Listings
  // ---------------------------------------------------------------------------------------------

  /** `at` picks from a listing, in its order, exactly the positions for which `wanted` holds. */
  ghost predicate Picks<T>(all: seq<T>, wanted: T -> bool, at: seq<nat>) {
    && (forall k :: 0 <= k < |at| ==> at[k] < |all| && wanted(all[at[k]]))
    && (forall j, k :: 0 <= j < k < |at| ==> at[j] < at[k])
    && (forall i: nat {:trigger Picked(at, i)} :: i < |all| && wanted(all[i]) ==> Picked(at, i))
  }

  predicate Picked(at: seq<nat>, i: nat) {
    i in at
  }

  ghost predicate IsFiltered<T>(all: seq<T>, wanted: T -> bool, kept: seq<T>, at: seq<nat>) {
    Picks(all, wanted, at) && |kept| == |at| && forall k :: 0 <= k < |at| ==> at[k] < |all| && kept[k] == all[at[k]]
  }

  function Later(at: seq<nat>): seq<nat> {
    seq(|at|, k requires 0 <= k < |at| => at[k] + 1)
  }

  lemma LaterIsPicked<T>(all: seq<T>, wanted: T -> bool, at: seq<nat>, i: nat)
    requires all != [] && Picks(all[1..], wanted, at) && 0 < i < |all| && wanted(all[i])
    ensures i in Later(at)
  {
    assert all[1..][i - 1] == all[i];
    assert Picked(at, i - 1);
    var k :| 0 <= k < |at| && at[k] == i - 1;
    assert Later(at)[k] == i;
  }

  lemma LaterFits<T>(all: seq<T>, wanted: T -> bool, kept: seq<T>, at: seq<nat>)
    requires all != [] && IsFiltered(all[1..], wanted, kept, at)
    ensures forall k :: 0 <= k < |at| ==>
              0 < Later(at)[k] < |all| && wanted(all[Later(at)[k]]) && kept[k] == all[Later(at)[k]]
  {
    forall k | 0 <= k < |at|
      ensures 0 < Later(at)[k] < |all| && wanted(all[Later(at)[k]]) && kept[k] == all[Later(at)[k]]
    {
      assert all[1..][at[k]] == all[at[k] + 1];
    }
  }

  lemma FilteredWithHead<T>(all: seq<T>, wanted: T -> bool, kept: seq<T>, at: seq<nat>)
    requires all != [] && IsFiltered(all[1..], wanted, kept, at) && wanted(all[0])
    ensures IsFiltered(all, wanted, [all[0]] + kept, [0] + Later(at))
  {
    var picked, longer := [0] + Later(at), [all[0]] + kept;
    LaterFits(all, wanted, kept, at);
    forall k | 0 <= k < |picked|
      ensures picked[k] < |all| && wanted(all[picked[k]]) && longer[k] == all[picked[k]]
    {
      if k > 0 { assert picked[k] == Later(at)[k - 1] && longer[k] == kept[k - 1]; }
    }
    forall j, k | 0 <= j < k < |picked| ensures picked[j] < picked[k] {
      assert picked[k] == Later(at)[k - 1] == at[k - 1] + 1;
      if j > 0 { assert picked[j] == Later(at)[j - 1] == at[j - 1] + 1; }
    }
    forall i: nat | i < |all| && wanted(all[i]) ensures Picked(picked, i) {
      if i > 0 {
        LaterIsPicked(all, wanted, at, i);
        assert i in Later(at);
      } else {
        assert picked[0] == 0;
      }
    }
    assert Picks(all, wanted, picked);
  }

  lemma FilteredWithoutHead<T>(all: seq<T>, wanted: T -> bool, kept: seq<T>, at: seq<nat>)
    requires all != [] && IsFiltered(all[1..], wanted, kept, at) && !wanted(all[0])
    ensures IsFiltered(all, wanted, kept, Later(at))
  {
    LaterFits(all, wanted, kept, at);
    forall i: nat | i < |all| && wanted(all[i]) ensures Picked(Later(at), i) {
      if i > 0 { LaterIsPicked(all, wanted, at, i); }
    }
  }

  lemma OneMoreFiltered<T>(all: seq<T>, wanted: T -> bool, kept: seq<T>, at: seq<nat>) returns (picked: seq<nat>)
    requires all != [] && IsFiltered(all[1..], wanted, kept, at)
    ensures IsFiltered(all, wanted, (if wanted(all[0]) then [all[0]] else []) + kept, picked)
  {
    if wanted(all[0]) {
      picked := [0] + Later(at);
      FilteredWithHead(all, wanted, kept, at);
    } else {
      picked := Later(at);
      FilteredWithoutHead(all, wanted, kept, at);
      assert [] + kept == kept;
    }
  }

  lemma {:induction false} ServedIsFiltered(all: seq<Container>) returns (at: seq<nat>)
    ensures IsFiltered(all, (c: Container) => AGENT_ROLE_LABEL !in c.labels, Served(all), at)
    decreases |all|
  {
    var wanted := (c: Container) => AGENT_ROLE_LABEL !in c.labels;
    at := [];
    if all != [] {
      at := ServedIsFiltered(all[1..]);
      at := OneMoreFiltered(all, wanted, Served(all[1..]), at);
    }
  }

  /** Of the containers that are no agent's: what `compose.up` is for does not run, what `compose.down`
      is for does. */
  function IsFor(verb: Verb): Container -> bool {
    (c: Container) => AGENT_ROLE_LABEL !in c.labels && (verb == Stop <==> c.state == "running")
  }

  lemma {:induction false} TargetsAreFiltered(verb: Verb, all: seq<Container>) returns (at: seq<nat>)
    ensures IsFiltered(all, IsFor(verb), Targets(verb, all), at)
    decreases |all|
  {
    at := [];
    if all != [] {
      at := TargetsAreFiltered(verb, all[1..]);
      at := OneMoreFiltered(all, IsFor(verb), Targets(verb, all[1..]), at);
    }
  }

  /** A listing answers exactly the containers that are no agent's, in the daemon's order. */
  lemma ListingsAreFiltered(op: Operation, daemon: Daemon, all: seq<Container>) returns (at: seq<nat>)
    requires (op.ContainersList? || op.ComposeLs?) && daemon.list(0) == Ok(all)
    ensures Finished(op, daemon).Ok? && Finished(op, daemon).value.Items?
    ensures IsFiltered(all, (c: Container) => AGENT_ROLE_LABEL !in c.labels, Finished(op, daemon).value.items, at)
    ensures Invoked(op, daemon).calls == []
  {
    at := ServedIsFiltered(all);
  }

  /** The calls are for the picked containers, one after the other; all of them, unless the last one
      made failed otherwise than by stopping what is stopped already. */
  ghost predicate CallsFor(verb: Verb, all: seq<Container>, at: seq<nat>, daemon: Daemon, calls: seq<EffectCall>) {
    && Picks(all, IsFor(verb), at) && |calls| <= |at|
    && (forall k :: 0 <= k < |calls| ==> at[k] < |all| && calls[k] == EffectCall(verb, all[at[k]].id, daemon.effect(k)))
    && (forall k :: 0 <= k < |calls| - 1 ==> !FailsFor(verb, daemon.effect(k)))
    && (|calls| < |at| ==> calls != [] && FailsFor(verb, daemon.effect(|calls| - 1)))
  }

  /** The client's stop rejects with status 304 where there is nothing to stop. */
  predicate FailsFor(verb: Verb, reply: EffectReply) {
    reply.Failed? && !(verb == Stop && reply.failure.status == Some(304))
  }

  /** `compose.up` and `compose.down`: which calls are made, in which order, and how the operation ends. */
  lemma ComposeActsOnWhatItIsFor(op: Operation, daemon: Daemon, all: seq<Container>) returns (at: seq<nat>)
    requires op.ComposeUp? || op.ComposeDown?
    requires op.project.Some? && op.project.value != "" && daemon.list(0) == Ok(all)
    ensures var verb := if op.ComposeUp? then Start else Stop;
            var calls := Invoked(op, daemon).calls;
            && CallsFor(verb, all, at, daemon, calls)
            && (Finished(op, daemon).Ok? <==>
                  (calls == [] || !FailsFor(verb, daemon.effect(|calls| - 1))) && daemon.list(1).Ok?)
            && (Finished(op, daemon).Err? && calls != [] && !FailsFor(verb, daemon.effect(|calls| - 1)) ==>
                  Finished(op, daemon).error == OutcomeUnknown)
  {
    var verb := if op.ComposeUp? then Start else Stop;
    assert Invoked(op, daemon) == Composed(verb, daemon);
    at := ComposeCalls(verb, daemon, all);
  }

  lemma ComposeCalls(verb: Verb, daemon: Daemon, all: seq<Container>) returns (at: seq<nat>)
    requires daemon.list(0) == Ok(all)
    ensures var i := Composed(verb, daemon);
            && CallsFor(verb, all, at, daemon, i.calls)
            && (i.inFlight <==> i.calls != [] && FailsFor(verb, daemon.effect(|i.calls| - 1)))
            && (i.inFlight ==> i.result.Err?) && (!i.inFlight ==> i.done == |i.calls| && (i.result.Ok? <==> daemon.list(1).Ok?))
  {
    var targets := Targets(verb, all);
    at := TargetsAreFiltered(verb, all);
    ActsInOrder(verb, targets, daemon.effect, 0);
    var acting := Act(verb, targets, daemon.effect, 0);
    TargetsAreCalled(verb, daemon, all, at, acting);
    assert Composed(verb, daemon).calls == acting.calls;
  }

  lemma TargetsAreCalled(verb: Verb, daemon: Daemon, all: seq<Container>, at: seq<nat>, acting: Acting)
    requires IsFiltered(all, IsFor(verb), Targets(verb, all), at)
    requires InOrder(verb, Targets(verb, all), daemon.effect, 0, acting)
    ensures CallsFor(verb, all, at, daemon, acting.calls)
    ensures acting.failed.Some? <==> acting.calls != [] && FailsFor(verb, daemon.effect(|acting.calls| - 1))
  {
    var calls := acting.calls;
    forall k | 0 <= k < |calls| ensures at[k] < |all| && calls[k] == EffectCall(verb, all[at[k]].id, daemon.effect(k)) {
      assert Targets(verb, all)[k] == all[at[k]];
      assert daemon.effect(0 + k) == daemon.effect(k);
    }
    forall k | 0 <= k < |calls| - 1 ensures !FailsFor(verb, daemon.effect(k)) {
      assert Succeeds(verb, calls[k].reply);
    }
  }

  /** What it answers: the picked containers' ids, and the listing after it. */
  lemma ComposeAnswers(op: Operation, daemon: Daemon) returns (at: seq<nat>, shown: seq<nat>)
    requires (op.ComposeUp? || op.ComposeDown?) && Finished(op, daemon).Ok?
    ensures daemon.list(0).Ok? && daemon.list(1).Ok? && Finished(op, daemon).value.Acted?
    ensures var data := Finished(op, daemon).value;
            var all := daemon.list(0).value;
            && Picks(all, IsFor(if op.ComposeUp? then Start else Stop), at) && |data.ids| == |at|
            && (forall k :: 0 <= k < |at| ==> at[k] < |all| && data.ids[k] == all[at[k]].id)
            && IsFiltered(daemon.list(1).value, (c: Container) => AGENT_ROLE_LABEL !in c.labels, data.containers, shown)
  {
    at := TargetsAreFiltered(if op.ComposeUp? then Start else Stop, daemon.list(0).value);
    shown := ServedIsFiltered(daemon.list(1).value);
  }

  // ---------------------------------------------------------------------------------------------
  // A caller that stopped waiting
  // ---------------------------------------------------------------------------------------------

  /** A call that failed without a status of the daemon's is the one the operation failed of. */
  lemma FailedCallIsInFlight(op: Operation, daemon: Daemon, k: nat)
    requires k < |Invoked(op, daemon).calls| && Invoked(op, daemon).calls[k].reply.Failed?
    requires Invoked(op, daemon).calls[k].reply.failure.status.None?
    ensures var i := Invoked(op, daemon);
            i.inFlight && i.result == Err(ClientError(i.calls[k].reply.failure))
  {
    if op.ComposeUp? || op.ComposeDown? {
      var verb := if op.ComposeUp? then Start else Stop;
      assert Invoked(op, daemon) == Composed(verb, daemon);
      FailedComposeCall(verb, daemon, k);
    }
  }

  lemma FailedComposeCall(verb: Verb, daemon: Daemon, k: nat)
    requires k < |Composed(verb, daemon).calls| && Composed(verb, daemon).calls[k].reply.Failed?
    requires Composed(verb, daemon).calls[k].reply.failure.status.None?
    ensures var i := Composed(verb, daemon);
            i.inFlight && i.result == Err(ClientError(i.calls[k].reply.failure))
  {
    var targets := Targets(verb, daemon.list(0).value);
    ActsInOrder(verb, targets, daemon.effect, 0);
    var acting := Act(verb, targets, daemon.effect, 0);
    assert Composed(verb, daemon).calls == acting.calls;
    assert !Succeeds(verb, acting.calls[k].reply);
    assert acting.failed.Some? && k == |acting.calls| - 1;
  }

  /** An effect call whose error says by itself that the request may be with the daemon, and carries no
      answer of the daemon's: the operation is recorded as one that may have run. */
  lemma DoubtIsRecorded(op: Operation, daemon: Daemon, k: nat)
    requires k < |Invoked(op, daemon).calls| && Invoked(op, daemon).calls[k].reply.Failed?
    requires var f := Invoked(op, daemon).calls[k].reply.failure;
             && f.status.None? && f.root in f.graph
             && var n := f.graph[f.root]; n.aborted || n.code == Tls || (n.code == Broken && !n.connecting)
    ensures Finished(op, daemon).Err? && StoredVerdict(Finished(op, daemon).error) == MayHaveRun
  {
    var i := Invoked(op, daemon);
    FailedCallIsInFlight(op, daemon, k);
    AnyShapeIsReadSoundly(i.calls[k].reply.failure.graph, i.calls[k].reply.failure.root);
    VerdictIsExact(op, daemon);
  }

  /** The same of an error that only leads to such an object, in its causes or its parts, where no way
      down meets more than nine objects. */
  lemma DeepDoubtIsRecorded(op: Operation, daemon: Daemon, k: nat)
    requires k < |Invoked(op, daemon).calls| && Invoked(op, daemon).calls[k].reply.Failed?
    requires var f := Invoked(op, daemon).calls[k].reply.failure;
             && f.status.None? && f.root in f.graph && ShortPaths(f.graph, f.root)
             && SomeMayBeDelivered(f.graph, Reachable(f.graph, f.root))
    ensures Finished(op, daemon).Err? && StoredVerdict(Finished(op, daemon).error) == MayHaveRun
  {
    var i := Invoked(op, daemon);
    FailedCallIsInFlight(op, daemon, k);
    ReachableIsReadSafely(i.calls[k].reply.failure.graph, i.calls[k].reply.failure.root);
    VerdictIsExact(op, daemon);
  }
}

/** The docker gate's transport: which containers an operation touches, and what a failure of it says
    about whether anything changed. */
module DockerTransport {
  import opened Wrappers
  import opened NetworkFailure

  datatype Container = Container(id: string, state: string, labels: map<string, string>)

  /** An error of the Docker client: its object graph, and the daemon's HTTP status if it carries one. */
  datatype Failure = Failure(graph: Graph, root: NodeId, status: Option<int>)

  /** The daemon's side of one start, stop or restart. `changed`: whether the container did change,
      although the call failed. */
  datatype EffectReply = Answered | Failed(failure: Failure, changed: bool)

  datatype Verb = Start | Stop | Restart

  datatype EffectCall = EffectCall(verb: Verb, id: string, reply: EffectReply)

  /** What the daemon answers to the n-th inspect, listing and effect call of one operation. */
  datatype Daemon = Daemon(
    inspect: nat -> Result<Container, Failure>,
    list: nat -> Result<seq<Container>, Failure>,
    logs: Result<string, Failure>,
    effect: nat -> EffectReply)

  /** `None`: the parameter is missing or no string. */
  datatype Operation =
    | ContainersList
    | ContainerInspect(id: Option<string>)
    | ComposeLs
    | LogsTail(id: Option<string>)
    | ContainerRestart(id: Option<string>)
    | ComposeUp(project: Option<string>)
    | ComposeDown(project: Option<string>)
    | UnknownOperation

  datatype Error =
    | Refused
    | InvokeFailed(cause: Option<Failure>)
    | OutcomeUnknown
    | ClientError(failure: Failure)

  datatype Data = Items(items: seq<Container>) | Item(item: Container) | Text(text: string) | Acted(ids: seq<string>, containers: seq<Container>)

  /** `done`: effect calls that succeeded; `inFlight`: one that did not. */
  datatype Invocation = Invocation(calls: seq<EffectCall>, done: nat, inFlight: bool, result: Result<Data, Error>)

  const AGENT_ROLE_LABEL := "nexttime.role"

  predicate IsAgent(c: Container) {
    AGENT_ROLE_LABEL in c.labels
  }

  function Served(all: seq<Container>): seq<Container> {
    if all == [] then [] else (if IsAgent(all[0]) then [] else [all[0]]) + Served(all[1..])
  }

  /** `compose.up` starts what does not run, `compose.down` stops what does. */
  function Targets(verb: Verb, all: seq<Container>): seq<Container> {
    if all == [] then []
    else
      var c := all[0];
      (if !IsAgent(c) && (c.state == "running" <==> verb.Stop?) then [c] else []) + Targets(verb, all[1..])
  }

  /** A stop of what is already stopped is no failure. */
  predicate Succeeds(verb: Verb, reply: EffectReply) {
    reply.Answered? || (verb.Stop? && reply.failure.status == Some(304))
  }

  predicate Changed(call: EffectCall) {
    call.reply.Answered? || call.reply.changed
  }

  datatype Acting = Acting(calls: seq<EffectCall>, failed: Option<Failure>)

  /** One effect call per target, in order, up to the first that fails. */
  function Act(verb: Verb, targets: seq<Container>, effect: nat -> EffectReply, n: nat): Acting
    decreases |targets|
  {
    if targets == [] then Acting([], None)
    else
      var call := EffectCall(verb, targets[0].id, effect(n));
      if Succeeds(verb, call.reply) then
        var rest := Act(verb, targets[1..], effect, n + 1);
        Acting([call] + rest.calls, rest.failed)
      else Acting([call], Some(call.reply.failure))
  }

  function Ids(targets: seq<Container>): seq<string> {
    seq(|targets|, i requires 0 <= i < |targets| => targets[i].id)
  }

  function Quiet(result: Result<Data, Error>): Invocation {
    Invocation([], 0, false, result)
  }

  predicate Missing(param: Option<string>) {
    param.None? || param.value == ""
  }

  function Listed(daemon: Daemon): Invocation {
    match daemon.list(0)
    case Err(f) => Quiet(Err(ClientError(f)))
    case Ok(all) => Quiet(Ok(Items(Served(all))))
  }

  /** The container a name stands for, unless it is an agent's. */
  function Resolved(daemon: Daemon): Result<Container, Error> {
    match daemon.inspect(0)
    case Err(f) => Err(ClientError(f))
    case Ok(c) => if IsAgent(c) then Err(Refused) else Ok(c)
  }

  function Composed(verb: Verb, daemon: Daemon): Invocation {
    match daemon.list(0)
    case Err(f) => Quiet(Err(ClientError(f)))
    case Ok(all) =>
      var targets := Targets(verb, all);
      var acting := Act(verb, targets, daemon.effect, 0);
      if acting.failed.Some? then
        Invocation(acting.calls, |acting.calls| - 1, true, Err(ClientError(acting.failed.value)))
      else
        Invocation(acting.calls, |acting.calls|, false,
                   match daemon.list(1)
                   case Err(f) => Err(ClientError(f))
                   case Ok(after) => Ok(Acted(Ids(targets), Served(after))))
  }

  function Restarted(daemon: Daemon, target: Container): Invocation {
    var call := EffectCall(Restart, target.id, daemon.effect(0));
    if call.reply.Failed? then Invocation([call], 0, true, Err(ClientError(call.reply.failure)))
    else
      Invocation([call], 1, false, match daemon.inspect(1) case Err(f) => Err(ClientError(f)) case Ok(c) => Ok(Item(c)))
  }

  function Invoked(op: Operation, daemon: Daemon): Invocation {
    match op
    case ContainersList => Listed(daemon)
    case ComposeLs => Listed(daemon)
    case ContainerInspect(id) =>
      if Missing(id) then Quiet(Err(InvokeFailed(None)))
      else Quiet(match Resolved(daemon) case Err(e) => Err(e) case Ok(c) => Ok(Item(c)))
    case LogsTail(id) =>
      if Missing(id) then Quiet(Err(InvokeFailed(None)))
      else Quiet(match Resolved(daemon)
                 case Err(e) => Err(e)
                 case Ok(_) => match daemon.logs case Err(f) => Err(ClientError(f)) case Ok(text) => Ok(Text(text)))
    case ContainerRestart(id) =>
      if Missing(id) then Quiet(Err(InvokeFailed(None)))
      else (match Resolved(daemon) case Err(e) => Quiet(Err(e)) case Ok(target) => Restarted(daemon, target))
    case ComposeUp(project) => if Missing(project) then Quiet(Err(InvokeFailed(None))) else Composed(Start, daemon)
    case ComposeDown(project) => if Missing(project) then Quiet(Err(InvokeFailed(None))) else Composed(Stop, daemon)
    case UnknownOperation => Quiet(Err(InvokeFailed(None)))
  }

  // ---------------------------------------------------------------------------------------------
  // What a failure says
  // ---------------------------------------------------------------------------------------------

  /** An error read as the cause of the one that wraps it: one step further down. */
  function CauseDelivery(f: Failure): Option<Delivery> {
    Visited(f.graph, Some(f.root), 1, Progress(None, {})).found
  }

  function DeliveryOf(e: Error): Option<Delivery> {
    match e
    case ClientError(f) => NetworkFailureDelivery(f.graph, Some(f.root))
    case InvokeFailed(Some(f)) => CauseDelivery(f)
    case InvokeFailed(None) => None
    case Refused => None
    case OutcomeUnknown => None
  }

  function CauseOf(e: Error): Option<Failure> {
    if e.ClientError? then Some(e.failure) else None
  }

  function OperationFailure(e: Error, done: nat, inFlight: bool): Error {
    if done > 0 then OutcomeUnknown
    else if inFlight then
      if (e.ClientError? && e.failure.status.Some?) || DeliveryOf(e) == Some(NotSent) then InvokeFailed(CauseOf(e))
      else OutcomeUnknown
    else if e.InvokeFailed? || e.OutcomeUnknown? || e.Refused? then e
    else InvokeFailed(CauseOf(e))
  }

  /** What the gate records of a failed call; None when it frees the key instead. */
  datatype Verdict = Freed | Plain | MayHaveRun

  function StoredVerdict(e: Error): Verdict {
    if e.Refused? then Freed
    else if e.OutcomeUnknown? then MayHaveRun
    else if DeliveryOf(e) == Some(MaybeDelivered) then MayHaveRun
    else if e.InvokeFailed? || DeliveryOf(e) == Some(NotSent) then Plain
    else MayHaveRun
  }

  function Finished(op: Operation, daemon: Daemon): Result<Data, Error> {
    var i := Invoked(op, daemon);
    match i.result
    case Ok(data) => Ok(data)
    case Err(e) => Err(OperationFailure(e, i.done, i.inFlight))
  }

  // ---------------------------------------------------------------------------------------------
  // The transport
  // ---------------------------------------------------------------------------------------------

  class Transport {
    const daemon: Daemon
    var done: nat
    var inFlight: bool
    var calls: seq<EffectCall>

    constructor (daemon: Daemon)
      ensures this.daemon == daemon && done == 0 && !inFlight && calls == []
    {
      this.daemon := daemon;
      done, inFlight, calls := 0, false, [];
    }

    method Effect(verb: Verb, id: string, n: nat) returns (failed: Option<Failure>)
      modifies this
      ensures calls == old(calls) + [EffectCall(verb, id, daemon.effect(n))]
      ensures if Succeeds(verb, daemon.effect(n)) then failed.None? && done == old(done) + 1 && !inFlight
              else failed == Some(daemon.effect(n).failure) && done == old(done) && inFlight
    {
      inFlight := true;
      var reply := daemon.effect(n);
      calls := calls + [EffectCall(verb, id, reply)];
      if reply.Failed? && !(verb.Stop? && reply.failure.status == Some(304)) {
        return Some(reply.failure);
      }
      inFlight := false;
      done := done + 1;
      failed := None;
    }

    method ServedContainers(n: nat) returns (served: Result<seq<Container>, Error>)
      ensures served == match daemon.list(n) case Err(f) => Err(ClientError(f)) case Ok(all) => Ok(Served(all))
    {
      var all := daemon.list(n);
      if all.Err? {
        return Err(ClientError(all.error));
      }
      var kept: seq<Container> := [];
      var i := 0;
      while i < |all.value|
        invariant 0 <= i <= |all.value|
        invariant kept + Served(all.value[i..]) == Served(all.value)
      {
        assert all.value[i..][1..] == all.value[i + 1..];
        if !IsAgent(all.value[i]) {
          assert kept + ([all.value[i]] + Served(all.value[i + 1..])) == kept + [all.value[i]] + Served(all.value[i + 1..]);
          kept := kept + [all.value[i]];
        }
        i := i + 1;
      }
      assert kept + [] == kept;
      served := Ok(kept);
    }

    method Compose(verb: Verb) returns (result: Result<Data, Error>)
      requires verb.Start? || verb.Stop?
      requires done == 0 && !inFlight && calls == []
      modifies this
      ensures Invocation(calls, done, inFlight, result) == Composed(verb, daemon)
    {
      var all := ServedContainers(0);
      if all.Err? {
        return Err(all.error);
      }
      ServedTargets(verb, daemon.list(0).value);
      var targets := Wanted(verb, all.value);
      ActsInOrder(verb, targets, daemon.effect, 0);
      var failed := ActOn(verb, targets);
      if failed.Some? {
        return Err(ClientError(failed.value));
      }
      var after := ServedContainers(1);
      if after.Err? {
        return Err(after.error);
      }
      result := Ok(Acted(Ids(targets), after.value));
    }

    /** One call per target, until one fails. */
    method ActOn(verb: Verb, targets: seq<Container>) returns (failed: Option<Failure>)
      requires done == 0 && !inFlight && calls == []
      modifies this
      ensures Acting(calls, failed) == Act(verb, targets, daemon.effect, 0)
      ensures inFlight == failed.Some? && done == |calls| - (if inFlight then 1 else 0)
    {
      ghost var acting := Act(verb, targets, daemon.effect, 0);
      ActsInOrder(verb, targets, daemon.effect, 0);
      var i := 0;
      while i < |targets|
        invariant 0 <= i <= |targets| && done == i && !inFlight
        invariant forall k :: 0 <= k < i ==> Succeeds(verb, daemon.effect(k))
        invariant i <= |acting.calls| && calls == acting.calls[..i]
      {
        assert i < |acting.calls| && acting.calls[i] == EffectCall(verb, targets[i].id, daemon.effect(i));
        failed := Effect(verb, targets[i].id, i);
        if failed.Some? {
          return;
        }
        i := i + 1;
      }
      failed := None;
    }

    method InvokeOperation(op: Operation) returns (result: Result<Data, Error>)
      requires done == 0 && !inFlight && calls == []
      modifies this
      ensures Invocation(calls, done, inFlight, result) == Invoked(op, daemon)
    {
      match op {
        case ContainersList =>
          var all := ServedContainers(0);
          result := match all case Err(e) => Err(e) case Ok(items) => Ok(Items(items));
        case ComposeLs =>
          var all := ServedContainers(0);
          result := match all case Err(e) => Err(e) case Ok(items) => Ok(Items(items));
        case ContainerInspect(id) =>
          if Missing(id) { return Err(InvokeFailed(None)); }
          var target := Resolved(daemon);
          result := match target case Err(e) => Err(e) case Ok(c) => Ok(Item(c));
        case LogsTail(id) =>
          if Missing(id) { return Err(InvokeFailed(None)); }
          var target := Resolved(daemon);
          if target.Err? { return Err(target.error); }
          result := match daemon.logs case Err(f) => Err(ClientError(f)) case Ok(text) => Ok(Text(text));
        case ContainerRestart(id) =>
          if Missing(id) { return Err(InvokeFailed(None)); }
          var target := Resolved(daemon);
          if target.Err? { return Err(target.error); }
          var failed := Effect(Restart, target.value.id, 0);
          if failed.Some? { return Err(ClientError(failed.value)); }
          result := match daemon.inspect(1) case Err(f) => Err(ClientError(f)) case Ok(c) => Ok(Item(c));
        case ComposeUp(project) =>
          if Missing(project) { return Err(InvokeFailed(None)); }
          result := Compose(Start);
        case ComposeDown(project) =>
          if Missing(project) { return Err(InvokeFailed(None)); }
          result := Compose(Stop);
        case UnknownOperation =>
          result := Err(InvokeFailed(None));
      }
    }

    method Invoke(op: Operation) returns (result: Result<Data, Error>)
      requires done == 0 && !inFlight && calls == []
      modifies this
      ensures result == Finished(op, daemon) && calls == Invoked(op, daemon).calls
    {
      result := InvokeOperation(op);
      if result.Err? {
        result := Err(OperationFailure(result.error, done, inFlight));
      }
    }
  }

  function Wanted(verb: Verb, served: seq<Container>): seq<Container> {
    if served == [] then []
    else (if served[0].state == "running" <==> verb.Stop? then [served[0]] else []) + Wanted(verb, served[1..])
  }

  lemma {:induction false} ServedTargets(verb: Verb, all: seq<Container>)
    ensures Wanted(verb, Served(all)) == Targets(verb, all)
  {
    if all != [] {
      ServedTargets(verb, all[1..]);
      if IsAgent(all[0]) {
        assert Served(all) == Served(all[1..]);
      } else {
        assert Served(all)[1..] == Served(all[1..]);
      }
    }
  }

  // ---------------------------------------------------------------------------------------------
  // Which containers are touched
  // ---------------------------------------------------------------------------------------------

  lemma {:induction false} TargetsAreListed(verb: Verb, all: seq<Container>)
    ensures forall c :: c in Targets(verb, all) <==> c in all && !IsAgent(c) && (c.state == "running" <==> verb.Stop?)
  {
    if all != [] {
      assert all == [all[0]] + all[1..];
      TargetsAreListed(verb, all[1..]);
    }
  }

  /** The first `|calls|` targets, each in its turn; all of them, unless the last call made failed. */
  ghost predicate InOrder(verb: Verb, targets: seq<Container>, effect: nat -> EffectReply, n: nat, a: Acting) {
    && |a.calls| <= |targets| && (a.failed.None? ==> |a.calls| == |targets|)
    && (forall i :: 0 <= i < |a.calls| ==> a.calls[i] == EffectCall(verb, targets[i].id, effect(n + i)))
    && (a.failed.None? ==> forall i :: 0 <= i < |a.calls| ==> Succeeds(verb, a.calls[i].reply))
    && (a.failed.Some? ==> |a.calls| > 0 && var last := a.calls[|a.calls| - 1].reply;
                           !Succeeds(verb, last) && a.failed == Some(last.failure)
                           && forall i :: 0 <= i < |a.calls| - 1 ==> Succeeds(verb, a.calls[i].reply))
  }

  lemma OneMoreInOrder(verb: Verb, targets: seq<Container>, effect: nat -> EffectReply, n: nat, rest: Acting)
    requires targets != [] && Succeeds(verb, effect(n)) && InOrder(verb, targets[1..], effect, n + 1, rest)
    ensures InOrder(verb, targets, effect, n, Acting([EffectCall(verb, targets[0].id, effect(n))] + rest.calls, rest.failed))
  {
    var calls := [EffectCall(verb, targets[0].id, effect(n))] + rest.calls;
    forall i | 0 < i < |calls| ensures calls[i] == rest.calls[i - 1] && rest.calls[i - 1] == EffectCall(verb, targets[i].id, effect(n + i)) {
      assert targets[1..][i - 1] == targets[i];
    }
  }

  lemma {:induction false} ActsInOrder(verb: Verb, targets: seq<Container>, effect: nat -> EffectReply, n: nat)
    ensures InOrder(verb, targets, effect, n, Act(verb, targets, effect, n))
    decreases |targets|
  {
    if targets != [] {
      ActsInOrder(verb, targets[1..], effect, n + 1);
      if Succeeds(verb, effect(n)) {
        OneMoreInOrder(verb, targets, effect, n, Act(verb, targets[1..], effect, n + 1));
      }
    }
  }

  /** The daemon itself reported this container, it is no agent's, and it is in the state the verb is for. */
  predicate Checked(op: Operation, daemon: Daemon, call: EffectCall, c: Container) {
    && call.id == c.id && !IsAgent(c)
    && match op
       case ContainerRestart(_) => call.verb == Restart && daemon.inspect(0) == Ok(c)
       case ComposeUp(_) => call.verb == Start && daemon.list(0).Ok? && c in daemon.list(0).value && c.state != "running"
       case ComposeDown(_) => call.verb == Stop && daemon.list(0).Ok? && c in daemon.list(0).value && c.state == "running"
       case _ => false
  }

  /** Every start, stop and restart targets the full id of a container whose labels were read and show
      no agent; the operations that only read make none. */
  lemma OnlyCheckedContainers(op: Operation, daemon: Daemon, i: nat)
    requires i < |Invoked(op, daemon).calls|
    ensures exists c :: Checked(op, daemon, Invoked(op, daemon).calls[i], c)
  {
    var call := Invoked(op, daemon).calls[i];
    if op.ContainerRestart? {
      assert Checked(op, daemon, call, daemon.inspect(0).value);
    } else {
      var verb := if op.ComposeUp? then Start else Stop;
      var targets := Targets(verb, daemon.list(0).value);
      ActsInOrder(verb, targets, daemon.effect, 0);
      TargetsAreListed(verb, daemon.list(0).value);
      assert targets[i] in targets;
      assert Checked(op, daemon, call, targets[i]);
    }
  }

  function Shown(data: Data): seq<Container> {
    match data
    case Items(items) => items
    case Item(item) => [item]
    case Text(_) => []
    case Acted(_, containers) => containers
  }

  lemma {:induction false} ServedAreListed(all: seq<Container>)
    ensures forall c :: c in Served(all) <==> c in all && !IsAgent(c)
  {
    if all != [] {
      assert all == [all[0]] + all[1..];
      ServedAreListed(all[1..]);
    }
  }

  /** No operation shows a container that carries an agent's label when it is read, and a listing leaves
      out no other. (A restart shows its target as it is read after the restart.) */
  lemma NoAgentIsShown(op: Operation, daemon: Daemon)
    requires Finished(op, daemon).Ok? && !op.ContainerRestart?
    ensures forall c :: c in Shown(Finished(op, daemon).value) ==> !IsAgent(c)
    ensures op.ContainersList? || op.ComposeLs? ==>
              forall c :: c in daemon.list(0).value && !IsAgent(c) ==> c in Shown(Finished(op, daemon).value)
  {
    if daemon.list(0).Ok? { ServedAreListed(daemon.list(0).value); }
    if daemon.list(1).Ok? { ServedAreListed(daemon.list(1).value); }
  }

  /** What a successful `compose` reports as acted on is what was acted on, once each listed and wanted. */
  lemma ComposeReportsWhatItDid(op: Operation, daemon: Daemon)
    requires (op.ComposeUp? || op.ComposeDown?) && Finished(op, daemon).Ok?
    ensures var i := Invoked(op, daemon);
            && |i.calls| == |Finished(op, daemon).value.ids|
            && (forall k :: 0 <= k < |i.calls| ==> i.calls[k].id == Finished(op, daemon).value.ids[k])
            && (forall k :: 0 <= k < |i.calls| ==> Succeeds(i.calls[k].verb, i.calls[k].reply))
            && (forall c :: c in daemon.list(0).value && !IsAgent(c) && (c.state == "running" <==> op.ComposeDown?)
                            ==> c.id in Finished(op, daemon).value.ids)
  {
    var verb := if op.ComposeUp? then Start else Stop;
    var targets := Targets(verb, daemon.list(0).value);
    ActsInOrder(verb, targets, daemon.effect, 0);
    TargetsAreListed(verb, daemon.list(0).value);
    forall c | c in targets ensures c.id in Ids(targets) {
      var k :| 0 <= k < |targets| && targets[k] == c;
      assert Ids(targets)[k] == c.id;
    }
  }

  // ---------------------------------------------------------------------------------------------
  // What a stored failure promises
  // ---------------------------------------------------------------------------------------------

  /** An error status that may come back although the container changed: a proxy's own, when the daemon did
      not answer it in time; and the daemon's server error to a stop, whose signal may have gone out, or to
      a restart, which is a stop followed by a start that can fail. Any other is given before acting. */
  predicate MayFollowAction(verb: Verb, status: int) {
    status == 502 || status == 504 || (status == 500 && !verb.Start?)
  }

  predicate NeverLeft(f: Failure) {
    NetworkFailureDelivery(f.graph, Some(f.root)) == Some(NotSent)
  }

  /** What can be read off a failed call: it never left, or it was turned down before anything was done. */
  predicate Certain(verb: Verb, f: Failure) {
    NeverLeft(f) || (f.status.Some? && !MayFollowAction(verb, f.status.value))
  }

  /** The exact line: a failure is recorded as one that may have run if and only if an effect call had
      succeeded, or the one that failed has neither the daemon's answer nor the proof that it never
      left, or the error, read below the one that wraps it, shows a broken connection. */
  lemma VerdictIsExact(op: Operation, daemon: Daemon)
    requires Finished(op, daemon).Err?
    ensures var i := Invoked(op, daemon);
            var verdict := StoredVerdict(Finished(op, daemon).error);
            && (verdict == Freed <==> i.result.error.Refused?)
            && (verdict == MayHaveRun <==>
                  || i.done > 0
                  || (i.inFlight && i.result.error.failure.status.None?
                      && NetworkFailureDelivery(i.result.error.failure.graph, Some(i.result.error.failure.root)) != Some(NotSent))
                  || (i.result.error.ClientError? && CauseDelivery(i.result.error.failure) == Some(MaybeDelivered)))
  {
    var i := Invoked(op, daemon);
    if op.ComposeUp? && !Missing(op.project) { ComposeShape(Start, daemon); }
    if op.ComposeDown? && !Missing(op.project) { ComposeShape(Stop, daemon); }
    assert i.done > 0 || i.inFlight ==> i.result.error.ClientError?;
  }

  /** Before the last call everything succeeded; only a call in flight did not. */
  lemma ComposeShape(verb: Verb, daemon: Daemon)
    ensures var i := Composed(verb, daemon);
            && i.done == |i.calls| - (if i.inFlight then 1 else 0)
            && (i.inFlight ==> !Succeeds(verb, i.calls[i.done].reply) && i.result == Err(ClientError(i.calls[i.done].reply.failure)))
            && (i.result.Err? ==> i.result.error.ClientError?)
            && (i.result.Err? && daemon.list(0).Err? ==> i.calls == [])
  {
    if daemon.list(0).Ok? {
      ActsInOrder(verb, Targets(verb, daemon.list(0).value), daemon.effect, 0);
    }
  }

  function VerbOf(op: Operation): Verb {
    match op
    case ComposeUp(_) => Start
    case ComposeDown(_) => Stop
    case _ => Restart
  }

  predicate StoredPlain(op: Operation, daemon: Daemon) {
    Finished(op, daemon).Err? && StoredVerdict(Finished(op, daemon).error) != MayHaveRun
  }

  /** Only where it cannot be told may a container have changed although its call failed. */
  ghost predicate Possible(op: Operation, daemon: Daemon) {
    forall n {:trigger daemon.effect(n)} ::
      daemon.effect(n).Failed? && daemon.effect(n).changed ==> !Certain(VerbOf(op), daemon.effect(n).failure)
  }

  /** The same replies to look at; the failed calls of which the container changed all the same are others. */
  ghost function WithChanges(daemon: Daemon, changed: iset<nat>): Daemon {
    daemon.(effect := (n: nat) => match daemon.effect(n)
                                  case Answered => Answered
                                  case Failed(f, _) => Failed(f, n in changed))
  }

  predicate ChangedNothing(op: Operation, daemon: Daemon) {
    forall k :: 0 <= k < |Invoked(op, daemon).calls| ==> !Changed(Invoked(op, daemon).calls[k])
  }

  /** Every call made failed, and in a way that says the container did not change. */
  predicate AllCertain(op: Operation, daemon: Daemon) {
    var calls := Invoked(op, daemon).calls;
    forall k :: 0 <= k < |calls| ==> calls[k].reply.Failed? && Certain(calls[k].verb, calls[k].reply.failure)
  }

  /** Behind such a failure there is at most one effect call, the first, and it failed with a status or
      without leaving. */
  lemma PlainCall(op: Operation, daemon: Daemon)
    requires StoredPlain(op, daemon)
    ensures var calls := Invoked(op, daemon).calls;
            && |calls| <= 1
            && (calls != [] ==>
                  && calls[0].verb == VerbOf(op) && calls[0].reply == daemon.effect(0)
                  && calls[0].reply.Failed?
                  && (calls[0].reply.failure.status.Some? || NeverLeft(calls[0].reply.failure)))
  {
    VerdictIsExact(op, daemon);
    if (op.ComposeUp? || op.ComposeDown?) && daemon.list(0).Ok? {
      var verb := VerbOf(op);
      ComposeShape(verb, daemon);
      ActsInOrder(verb, Targets(verb, daemon.list(0).value), daemon.effect, 0);
    }
  }

  lemma {:induction false} ActIgnoresChanges(verb: Verb, targets: seq<Container>, daemon: Daemon, changed: iset<nat>, n: nat)
    ensures var a, b := Act(verb, targets, daemon.effect, n), Act(verb, targets, WithChanges(daemon, changed).effect, n);
            |a.calls| == |b.calls| && a.failed == b.failed
    decreases |targets|
  {
    if targets != [] { ActIgnoresChanges(verb, targets[1..], daemon, changed, n + 1); }
  }

  /** What an operation does and answers depends on what can be seen only. */
  lemma ChangesAreUnseen(op: Operation, daemon: Daemon, changed: iset<nat>)
    ensures var i, j := Invoked(op, daemon), Invoked(op, WithChanges(daemon, changed));
            |i.calls| == |j.calls| && i.done == j.done && i.inFlight == j.inFlight && i.result == j.result
  {
    if (op.ComposeUp? || op.ComposeDown?) && daemon.list(0).Ok? {
      ActIgnoresChanges(VerbOf(op), Targets(VerbOf(op), daemon.list(0).value), daemon, changed, 0);
    }
  }

  /** End to end: a failure for which the gate frees the key, or which it records as not outcome-unknown,
      certainly changed no container, whatever the daemon did that cannot be seen, if and only if the call
      that failed never left or its status is not one that may follow the action. */
  lemma PlainFailureChangedNothing(op: Operation, daemon: Daemon)
    requires StoredPlain(op, daemon)
    ensures (forall changed {:trigger WithChanges(daemon, changed)} ::
               Possible(op, WithChanges(daemon, changed)) ==> ChangedNothing(op, WithChanges(daemon, changed)))
            <==> AllCertain(op, daemon)
  {
    PlainCall(op, daemon);
    if AllCertain(op, daemon) {
      forall changed | Possible(op, WithChanges(daemon, changed)) ensures ChangedNothing(op, WithChanges(daemon, changed)) {
        ChangesAreUnseen(op, daemon, changed);
        CertainChangedNothing(op, WithChanges(daemon, changed), daemon);
      }
    } else {
      var other := WithChanges(daemon, iset{0});
      ChangesAreUnseen(op, daemon, iset{0});
      PlainCall(op, other);
      forall n ensures other.effect(n).Failed? && other.effect(n).changed ==> !Certain(VerbOf(op), other.effect(n).failure) {
        assert other.effect(n).Failed? && other.effect(n).changed ==> n == 0;
      }
      assert Possible(op, other) && Changed(Invoked(op, other).calls[0]);
    }
  }

  lemma CertainChangedNothing(op: Operation, other: Daemon, daemon: Daemon)
    requires StoredPlain(op, daemon) && StoredPlain(op, other) && Possible(op, other) && AllCertain(op, daemon)
    requires |Invoked(op, daemon).calls| == |Invoked(op, other).calls|
    requires daemon.effect(0).Failed? && other.effect(0).Failed? ==> daemon.effect(0).failure == other.effect(0).failure
    ensures ChangedNothing(op, other)
  {
    PlainCall(op, daemon);
    PlainCall(op, other);
    assert other.effect(0) == other.effect(0);
  }

  /** And each such status does mislead: there is an operation whose container changed, and the gate records
      that nothing did. */
  lemma MisleadingStatus(verb: Verb, status: int) returns (op: Operation, daemon: Daemon)
    requires MayFollowAction(verb, status)
    ensures VerbOf(op) == verb && Possible(op, daemon)
    ensures Finished(op, daemon).Err? && StoredVerdict(Finished(op, daemon).error) == Plain
    ensures !ChangedNothing(op, daemon)
  {
    var f := Failure(map[], 0, Some(status));
    var c := Container("c", if verb.Stop? then "running" else "exited", map[]);
    op := match verb
      case Start => ComposeUp(Some("p"))
      case Stop => ComposeDown(Some("p"))
      case Restart => ContainerRestart(Some("c"));
    daemon := Daemon(_ => Ok(c), _ => Ok([c]), Ok(""), _ => Failed(f, true));
    assert [c][1..] == [];
    assert Targets(verb, []) == [];
    if !verb.Restart? { assert Targets(verb, [c]) == [c]; }
    assert Invoked(op, daemon) == Invocation([EffectCall(verb, "c", Failed(f, true))], 0, true, Err(ClientError(f)));
    assert Changed(Invoked(op, daemon).calls[0]);
  }

  /** Without a status in play, such a failure means that the call never left. */
  lemma PlainWithoutStatusNeverLeft(op: Operation, daemon: Daemon, k: nat)
    requires StoredPlain(op, daemon)
    requires k < |Invoked(op, daemon).calls| && Invoked(op, daemon).calls[k].reply.Failed?
    requires Invoked(op, daemon).calls[k].reply.failure.status.None?
    ensures NeverLeft(Invoked(op, daemon).calls[k].reply.failure)
  {
    PlainCall(op, daemon);
  }

  /** A refusal made no effect call at all, so freeing the key is right. */
  lemma RefusalTouchedNothing(op: Operation, daemon: Daemon)
    requires Finished(op, daemon) == Err(Refused)
    ensures Invoked(op, daemon).calls == []
    ensures daemon.inspect(0).Ok? && IsAgent(daemon.inspect(0).value)
  {
    VerdictIsExact(op, daemon);
    if op.ComposeUp? && !Missing(op.project) { ComposeShape(Start, daemon); }
    if op.ComposeDown? && !Missing(op.project) { ComposeShape(Stop, daemon); }
  }

  /** A failure after a first change is never recorded as one that changed nothing. */
  lemma PartialRunIsNeverPlain(op: Operation, daemon: Daemon, k: nat)
    requires Finished(op, daemon).Err?
    requires k < |Invoked(op, daemon).calls| && Invoked(op, daemon).calls[k].reply.Answered?
    ensures StoredVerdict(Finished(op, daemon).error) == MayHaveRun
  {
    VerdictIsExact(op, daemon);
    if op.ComposeUp? || op.ComposeDown? {
      ComposeShape(if op.ComposeUp? then Start else Stop, daemon);
    }
  }

  // ---------------------------------------------------------------------------------------------
  // Reading a cause
  // ---------------------------------------------------------------------------------------------

  ghost predicate NotNamed(g: Graph, w: NodeId) {
    w !in g && forall n :: n in g ==> !IsChild(g[n], w)
  }

  lemma {:induction false} UnnamedIsUnseen(g: Graph, w: NodeId, node: Node, value: Option<NodeId>, depth: nat, p: Progress)
    requires NotNamed(g, w) && value != Some(w)
    ensures Visited(g[w := node], value, depth, p.(seen := p.seen + {w}))
            == (var q := Visited(g, value, depth, p); q.(seen := q.seen + {w}))
    decreases MAX_DEPTH + 1 - depth, 1, 0
  {
    if value.Some? && depth <= MAX_DEPTH && value.value !in p.seen && value.value in g {
      var n := g[value.value];
      var q := Progress(Stronger(p.found, OwnDelivery(n)), p.seen + {value.value});
      assert q.seen + {w} == p.seen + {w} + {value.value};
      assert forall i :: 0 <= i < |n.errors| ==> n.errors[i] in n.errors;
      UnnamedIsUnseenAll(g, w, node, n.errors, depth + 1, q);
      assert !IsChild(n, w);
      UnnamedIsUnseen(g, w, node, n.cause, depth + 1, VisitedAll(g, n.errors, depth + 1, q));
    }
  }

  lemma {:induction false} UnnamedIsUnseenAll(g: Graph, w: NodeId, node: Node, values: seq<Option<NodeId>>, depth: nat, p: Progress)
    requires NotNamed(g, w) && depth > 0 && Some(w) !in values
    ensures VisitedAll(g[w := node], values, depth, p.(seen := p.seen + {w}))
            == (var q := VisitedAll(g, values, depth, p); q.(seen := q.seen + {w}))
    decreases MAX_DEPTH + 1 - depth, 2, |values|
  {
    if values != [] {
      assert values[0] in values;
      UnnamedIsUnseen(g, w, node, values[0], depth, p);
      UnnamedIsUnseenAll(g, w, node, values[1..], depth, Visited(g, values[0], depth, p));
    }
  }

  /** Wrapping an error in one of the gate's own costs its cause one level of depth and nothing else. */
  lemma WrappedErrorReadsItsCause(f: Failure, w: NodeId)
    requires NotNamed(f.graph, w) && w != f.root
    ensures NetworkFailureDelivery(f.graph[w := Node(false, NoCode, false, [], Some(f.root))], Some(w)) == CauseDelivery(f)
  {
    var node := Node(false, NoCode, false, [], Some(f.root));
    UnnamedIsUnseen(f.graph, w, node, Some(f.root), 1, Progress(None, {}));
    var q := Progress(None, {w});
    assert {w} == {} + {w};
    assert VisitedAll(f.graph[w := node], [], 1, q) == q;
    assert NetworkFailureDelivery(f.graph[w := node], Some(w)) == Visited(f.graph[w := node], Some(f.root), 1, q).found;
  }
}

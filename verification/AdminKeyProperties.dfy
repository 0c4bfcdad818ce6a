/** Which key may reach which upstream, over any run of admin requests and provider calls handled one at
    a time, with the operator's file and environment fixed. */
module AdminKeyProperties {
  import opened Wrappers
  import opened ProviderCatalog
  import opened AdminApi

  datatype Request =
    | Post(id: Id, entry: Entry, disk: Disk)
    | PutProvider(id: Id, bodyId: Id, entry: Entry, disk: Disk)
    | Delete(id: Id, disk: Disk)
    | SetSecret(id: Id, key: string, disk: Disk)
    | ClearSecret(id: Id, disk: Disk)
    | Use(id: Id) // the provider's own calls: its test, and what is proxied to it
    | Form(id: Id, upstream: string, typed: Option<string>, envName: Option<string>)

  datatype Entered = Entered(id: Id, key: string, upstream: string)

  /** `enteredFor`: the upstream the console key of an id was entered for; `entered`: every console key
      ever entered, with that upstream; `sent`: every key that ever left. None of it is kept by the code. */
  datatype Traced = Traced(s: State, enteredFor: map<Id, string>, entered: set<Entered>, sent: set<Sending>)

  /** One request handled: the state it leaves and what it is answered. Provider calls leave it as it is. */
  function Handled(setup: Setup, s: State, r: Request): Outcome {
    match r
    case Post(id, entry, disk) => Posted(setup, s, id, entry, disk)
    case PutProvider(id, bodyId, entry, disk) => Put(setup, s, id, bodyId, entry, disk)
    case Delete(id, disk) => Deleted(setup, s, id, disk)
    case SetSecret(id, key, disk) => SecretSet(setup, s, id, key, disk)
    case ClearSecret(id, disk) => SecretCleared(setup, s, id, disk)
    case Use(_) => Outcome(s, Done)
    case Form(_, _, _, _) => Outcome(s, Done)
  }

  function After(setup: Setup, s: State, r: Request): State {
    Handled(setup, s, r).state
  }

  function Sends(setup: Setup, s: State, r: Request): Result<Sending, Code> {
    match r
    case Use(id) => ProviderCredential(setup, s, id)
    case Form(id, upstream, typed, envName) => FormCredential(setup, s, id, upstream, typed, envName)
    case _ => Err(NotFound)
  }

  predicate Enters(setup: Setup, s: State, r: Request) {
    r.SetSecret? && Handled(setup, s, r).response.Done? && Current(setup, s, r.id).Some?
  }

  function Step(setup: Setup, t: Traced, r: Request): Traced {
    var sends := Sends(setup, t.s, r);
    var sent := if sends.Ok? then t.sent + {sends.value} else t.sent;
    if Enters(setup, t.s, r) then
      var upstream := setup.upstreamKey(Current(setup, t.s, r.id).value.config.upstream);
      Traced(After(setup, t.s, r), t.enteredFor[r.id := upstream], t.entered + {Entered(r.id, r.key, upstream)}, sent)
    else
      Traced(After(setup, t.s, r), t.enteredFor, t.entered, sent)
  }

  function Run(setup: Setup, t: Traced, requests: seq<Request>): Traced
    decreases |requests|
  {
    if requests == [] then t else Run(setup, Step(setup, t, requests[0]), requests[1..])
  }

  // ---------------------------------------------------------------------------------------------
  // Environment keys
  // ---------------------------------------------------------------------------------------------

  /** A variable that holds a key is named together with this upstream, in the file or in the store. */
  predicate Paired(setup: Setup, s: State, name: string, target: string) {
    && name in setup.env && setup.env[name] != ""
    && ((exists f | f in setup.file :: Names(setup.file[f], name) && setup.upstreamKey(setup.file[f].upstream) == target)
        || (exists id | id in s.store :: Names(s.store[id].config, name) && setup.upstreamKey(s.store[id].config.upstream) == target))
  }

  predicate Names(config: Config, name: string) {
    config.apiKeyEnv == Some(name)
  }

  ghost predicate NoNewPairs(setup: Setup, s: State, t: State) {
    forall name, target {:trigger Paired(setup, t, name, target)} ::
      name != "" && Paired(setup, t, name, target) ==> Paired(setup, s, name, target)
  }

  /** No request lets an environment key be paired with an upstream it was not paired with before. */
  lemma PairsNeverGrow(setup: Setup, s: State, r: Request)
    ensures NoNewPairs(setup, s, After(setup, s, r))
  {
  }

  /** An environment key that leaves goes to an upstream its variable is paired with. */
  lemma EnvKeyGoesWherePaired(setup: Setup, s: State, r: Request)
    requires Sends(setup, s, r).Ok? && Sends(setup, s, r).value.origin.Env?
    ensures var sending := Sends(setup, s, r).value;
            && sending.origin.name != "" && Paired(setup, s, sending.origin.name, sending.to)
            && sending.key == setup.env[sending.origin.name]
  {
    var sending := Sends(setup, s, r).value;
    var current := Current(setup, s, r.id);
    if current.Some? && Pairs(setup, current.value.config, sending.origin.name, sending.to) {
      if r.id in s.store {
        assert Pairs(setup, s.store[r.id].config, sending.origin.name, sending.to);
      } else {
        assert Pairs(setup, setup.file[r.id], sending.origin.name, sending.to);
      }
    }
  }

  // ---------------------------------------------------------------------------------------------
  // Console keys
  // ---------------------------------------------------------------------------------------------

  predicate BelongsAt(setup: Setup, t: Traced, id: Id) {
    id in t.s.keys && Current(setup, t.s, id).Some? ==>
      && id in t.enteredFor
      && t.enteredFor[id] == setup.upstreamKey(Current(setup, t.s, id).value.config.upstream)
  }

  /** Every console key was entered for the upstream its provider has now. */
  ghost predicate Belongs(setup: Setup, t: Traced) {
    forall id {:trigger BelongsAt(setup, t, id)} :: BelongsAt(setup, t, id)
  }

  /** The one way out: an override is deleted, its key cannot be, and the file's own entry of that id,
      visible again, has another upstream. */
  predicate Strands(setup: Setup, s: State, r: Request) {
    && r.Delete? && r.disk.storeWritable && r.disk.storeLands
    && r.id in s.store && r.id in s.keys && !(r.disk.keysWritable && r.disk.keysLand)
    && r.id in setup.file
    && setup.upstreamKey(setup.file[r.id].upstream) != setup.upstreamKey(s.store[r.id].config.upstream)
  }

  lemma OthersBelongStill(setup: Setup, t: Traced, r: Request, id: Id)
    requires BelongsAt(setup, t, id) && id != r.id
    ensures BelongsAt(setup, Step(setup, t, r), id)
  {
  }

  lemma OwnBelongsStill(setup: Setup, t: Traced, r: Request)
    requires BelongsAt(setup, t, r.id)
    ensures BelongsAt(setup, Step(setup, t, r), r.id) <==> !Strands(setup, t.s, r)
  {
  }

  /** Every console key stays with the upstream it was entered for, at every request but exactly those. */
  lemma KeysBelongIff(setup: Setup, t: Traced, r: Request)
    requires Belongs(setup, t)
    ensures Belongs(setup, Step(setup, t, r)) <==> !Strands(setup, t.s, r)
  {
    var u := Step(setup, t, r);
    assert BelongsAt(setup, t, r.id);
    OwnBelongsStill(setup, t, r);
    if Strands(setup, t.s, r) {
      assert !BelongsAt(setup, u, r.id);
    } else {
      forall id ensures BelongsAt(setup, u, id) {
        assert BelongsAt(setup, t, id);
        if id != r.id { OthersBelongStill(setup, t, r, id); }
      }
    }
  }

  // ---------------------------------------------------------------------------------------------
  // Over whole runs
  // ---------------------------------------------------------------------------------------------

  ghost predicate NeverStrands(setup: Setup, t: Traced, requests: seq<Request>)
    decreases |requests|
  {
    requests != [] ==> !Strands(setup, t.s, requests[0]) && NeverStrands(setup, Step(setup, t, requests[0]), requests[1..])
  }

  predicate KeyWasEntered(t: Traced, id: Id) {
    id in t.s.keys ==> id in t.enteredFor && Entered(id, t.s.keys[id], t.enteredFor[id]) in t.entered
  }

  /** A key is where it may be: as paired at the start, or as entered. */
  predicate Faithful(setup: Setup, start: State, t: Traced, sending: Sending) {
    match sending.origin
    case Typed => true
    case Console => Entered(sending.id, sending.key, sending.to) in t.entered
    case Env(name) => Paired(setup, start, name, sending.to) && sending.key == setup.env[name]
  }

  ghost predicate Inv(setup: Setup, start: State, t: Traced) {
    && Belongs(setup, t)
    && NoNewPairs(setup, start, t.s)
    && (forall id {:trigger KeyWasEntered(t, id)} :: KeyWasEntered(t, id))
    && (forall sending :: sending in t.sent ==> Faithful(setup, start, t, sending))
  }

  lemma SendingIsFaithful(setup: Setup, start: State, t: Traced, r: Request)
    requires Inv(setup, start, t) && Sends(setup, t.s, r).Ok?
    ensures Faithful(setup, start, t, Sends(setup, t.s, r).value)
  {
    var sending := Sends(setup, t.s, r).value;
    match sending.origin
    case Typed =>
    case Console =>
      assert BelongsAt(setup, t, r.id) && KeyWasEntered(t, r.id);
    case Env(name) =>
      EnvKeyGoesWherePaired(setup, t.s, r);
      assert Paired(setup, t.s, name, sending.to);
  }

  lemma StepKeepsEntered(setup: Setup, t: Traced, r: Request, id: Id)
    requires KeyWasEntered(t, id)
    ensures KeyWasEntered(Step(setup, t, r), id)
  {
  }

  lemma StepKeepsInv(setup: Setup, start: State, t: Traced, r: Request)
    requires Inv(setup, start, t) && !Strands(setup, t.s, r)
    ensures Inv(setup, start, Step(setup, t, r))
  {
    var u := Step(setup, t, r);
    KeysBelongIff(setup, t, r);
    PairsNeverGrow(setup, t.s, r);
    forall id ensures KeyWasEntered(u, id) {
      assert KeyWasEntered(t, id);
      StepKeepsEntered(setup, t, r, id);
    }
    if Sends(setup, t.s, r).Ok? { SendingIsFaithful(setup, start, t, r); }
    forall sending | sending in u.sent ensures Faithful(setup, start, u, sending) {
      assert Faithful(setup, start, t, sending);
    }
  }

  lemma {:induction false} RunKeepsInv(setup: Setup, start: State, t: Traced, requests: seq<Request>)
    requires Inv(setup, start, t) && NeverStrands(setup, t, requests)
    ensures Inv(setup, start, Run(setup, t, requests))
    decreases |requests|
  {
    if requests != [] {
      StepKeepsInv(setup, start, t, requests[0]);
      RunKeepsInv(setup, start, Step(setup, t, requests[0]), requests[1..]);
    }
  }

  /** Where a process may start: with whatever providers and keys are on file, the keys each known to have
      been entered, and for the upstream its provider has now. */
  ghost predicate Start(setup: Setup, t: Traced) {
    && Belongs(setup, t)
    && (forall id {:trigger KeyWasEntered(t, id)} :: KeyWasEntered(t, id))
    && t.sent == {}
  }

  /** Whatever administrators do, a console key, entered now or kept from before, only ever goes to an
      upstream it was entered for under that id, and an environment key only to one its variable was paired
      with at the start. */
  lemma KeysGoWhereTheyBelong(setup: Setup, start: Traced, requests: seq<Request>, sending: Sending)
    requires Start(setup, start) && NeverStrands(setup, start, requests)
    requires sending in Run(setup, start, requests).sent
    ensures Faithful(setup, start.s, Run(setup, start, requests), sending)
  {
    RunKeepsInv(setup, start.s, start, requests);
  }

  /** Every environment key that left went where its variable was paired at the start. */
  ghost predicate EnvFaithful(setup: Setup, start: State, t: Traced) {
    forall sending :: sending in t.sent && sending.origin.Env? ==>
      Paired(setup, start, sending.origin.name, sending.to) && sending.key == setup.env[sending.origin.name]
  }

  lemma {:induction false} EnvRunIsFaithful(setup: Setup, start: State, t: Traced, requests: seq<Request>)
    requires NoNewPairs(setup, start, t.s) && EnvFaithful(setup, start, t)
    ensures EnvFaithful(setup, start, Run(setup, t, requests))
    decreases |requests|
  {
    if requests != [] {
      var u := Step(setup, t, requests[0]);
      PairsNeverGrow(setup, t.s, requests[0]);
      if Sends(setup, t.s, requests[0]).Ok? && Sends(setup, t.s, requests[0]).value.origin.Env? {
        EnvKeyGoesWherePaired(setup, t.s, requests[0]);
      }
      EnvRunIsFaithful(setup, start, u, requests[1..]);
    }
  }

  /** For environment keys this holds in every run from any state, whatever becomes of the console keys. */
  lemma EnvKeysGoWherePaired(setup: Setup, start: Traced, requests: seq<Request>, sending: Sending)
    requires start.sent == {}
    requires sending in Run(setup, start, requests).sent && sending.origin.Env?
    ensures Paired(setup, start.s, sending.origin.name, sending.to) && sending.key == setup.env[sending.origin.name]
  {
    EnvRunIsFaithful(setup, start.s, start, requests);
  }

  /** No run of requests adds a pair either. */
  lemma {:induction false} EnvPairsOverRuns(setup: Setup, t: Traced, requests: seq<Request>)
    ensures NoNewPairs(setup, t.s, Run(setup, t, requests).s)
    decreases |requests|
  {
    if requests != [] {
      PairsNeverGrow(setup, t.s, requests[0]);
      EnvPairsOverRuns(setup, Step(setup, t, requests[0]), requests[1..]);
    }
  }
}

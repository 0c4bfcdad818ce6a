/** Provider-management requests in flight together. A request is cut at its awaits: what it looked up
    before one may be out of date after it. */
module AdminInterleavings {
  import opened Wrappers
  import opened ProviderCatalog
  import opened AdminApi
  import opened AdminKeyProperties

  type FlightId = nat

  /** A request between two awaits, with what it goes on with. */
  datatype Flight =
    | Keying(id: Id, key: string, upstream: string) // the provider was there, with that upstream
    | Unkeying(id: Id)
    | Looking(id: Id, existing: Config)             // a `PUT` that found its provider; its body is being read
    | Clearing(id: Id, entry: Entry)                // allowed; the console key goes first
    | Writing(id: Id, entry: Entry)                 // the row is to be written
    | Removing(id: Id)                              // a `DELETE`; the row is to go
    | Forgetting(id: Id)                            // the row is gone, the key is to go
    | Calling(id: Id, config: Config)               // a test or proxied call, before it takes its key

  datatype World = World(t: Traced, flights: map<FlightId, Flight>)

  datatype Event =
    | PostArrives(f: FlightId, id: Id, entry: Entry)
    | PutArrives(f: FlightId, id: Id)
    | PutBody(f: FlightId, bodyId: Id, entry: Entry)
    | DeleteArrives(f: FlightId, id: Id)
    | SecretArrives(f: FlightId, id: Id, key: string)
    | UnsecretArrives(f: FlightId, id: Id)
    | CallArrives(f: FlightId, id: Id)
    | Proceeds(f: FlightId, ok: bool) // `ok`: the write it waits for lands
    | Asks(id: Id, upstream: string, typed: Option<string>, envName: Option<string>)

  function Norm(setup: Setup, config: Config): string {
    setup.upstreamKey(config.upstream)
  }

  function Sent(t: Traced, sends: Result<Sending, Code>): Traced {
    if sends.Ok? then t.(sent := t.sent + {sends.value}) else t
  }

  /** The key of a provider's own call: the console's as it is now, else that of the variable the provider
      named when the call looked it up. */
  function CallCredential(setup: Setup, s: State, id: Id, config: Config): Result<Sending, Code> {
    var to := Norm(setup, config);
    if id in s.keys then
      if s.keys[id] == "" then Err(CredentialMissing) else Ok(Sending(id, Console, s.keys[id], to))
    else if config.apiKeyEnv.Some? && config.apiKeyEnv.value != "" && HoldsKey(setup, config.apiKeyEnv.value) then
      Ok(Sending(id, Env(config.apiKeyEnv.value), setup.env[config.apiKeyEnv.value], to))
    else Err(CredentialMissing)
  }

  function WithoutKey(t: Traced, id: Id): Traced {
    t.(s := t.s.(keys := t.s.keys - {id}))
  }

  /** What the await a request stands at comes to, and where the request stands then. */
  function Landed(setup: Setup, t: Traced, flight: Flight, ok: bool): (Traced, Option<Flight>) {
    match flight
    case Keying(id, key, upstream) =>
      if !ok then (t, None)
      else (Traced(t.s.(keys := t.s.keys[id := key]), t.enteredFor[id := upstream], t.entered + {Entered(id, key, upstream)}, t.sent), None)
    case Unkeying(id) => (if ok then WithoutKey(t, id) else t, None)
    case Looking(_, _) => (t, Some(flight))
    case Clearing(id, entry) =>
      if ok || id !in t.s.keys then (WithoutKey(t, id), Some(Writing(id, entry))) else (t, None)
    case Writing(id, entry) =>
      (if ok && id !in setup.reserved then t.(s := t.s.(store := t.s.store[id := entry])) else t, None)
    case Removing(id) =>
      if ok then (t.(s := t.s.(store := t.s.store - {id})), Some(Forgetting(id))) else (t, None)
    case Forgetting(id) => (if ok then WithoutKey(t, id) else t, None)
    case Calling(id, config) => (Sent(t, CallCredential(setup, t.s, id, config)), None)
  }

  /** A request that was allowed to write `entry`. */
  function Allowed(s: State, id: Id, entry: Entry, clear: bool): Flight {
    if clear && id in s.keys then Clearing(id, entry) else Writing(id, entry)
  }

  function Enter(w: World, f: FlightId, flight: Flight): World {
    w.(flights := w.flights[f := flight])
  }

  function Step(setup: Setup, w: World, e: Event): World {
    var s := w.t.s;
    match e
    case PostArrives(f, id, entry) =>
      if f !in w.flights && id !in setup.reserved && Current(setup, s, id).None?
         && PairingAllowed(setup, s.store, id, entry.config, None)
      then Enter(w, f, Allowed(s, id, entry, true))
      else w
    case PutArrives(f, id) =>
      if f !in w.flights && Current(setup, s, id).Some? then Enter(w, f, Looking(id, Current(setup, s, id).value.config)) else w
    case PutBody(f, bodyId, entry) =>
      if f in w.flights && w.flights[f].Looking? then
        var id, existing := w.flights[f].id, w.flights[f].existing;
        if bodyId == id && PairingAllowed(setup, s.store, id, entry.config, Some(existing)) then
          Enter(w, f, Allowed(s, id, entry, Norm(setup, existing) != Norm(setup, entry.config)))
        else w.(flights := w.flights - {f})
      else w
    case DeleteArrives(f, id) =>
      if f !in w.flights && id in s.store then Enter(w, f, Removing(id)) else w
    case SecretArrives(f, id, key) =>
      if f !in w.flights && Current(setup, s, id).Some? then
        Enter(w, f, Keying(id, key, Norm(setup, Current(setup, s, id).value.config)))
      else w
    case UnsecretArrives(f, id) =>
      if f !in w.flights && Current(setup, s, id).Some? then Enter(w, f, Unkeying(id)) else w
    case CallArrives(f, id) =>
      if f !in w.flights && Current(setup, s, id).Some? then Enter(w, f, Calling(id, Current(setup, s, id).value.config)) else w
    case Proceeds(f, ok) =>
      if f in w.flights then
        var (t, flight) := Landed(setup, w.t, w.flights[f], ok);
        World(t, if flight.Some? then w.flights[f := flight.value] else w.flights - {f})
      else w
    case Asks(id, upstream, typed, envName) => w.(t := Sent(w.t, FormCredential(setup, s, id, upstream, typed, envName)))
  }

  function Run(setup: Setup, w: World, events: seq<Event>): World
    decreases |events|
  {
    if events == [] then w else Run(setup, Step(setup, w, events[0]), events[1..])
  }

  /** The request that goes on with `e`. */
  predicate Lands(w: World, e: Event) {
    e.Proceeds? && e.f in w.flights
  }

  // ---------------------------------------------------------------------------------------------
  // Console keys: exactly which steps part a key from its upstream
  // ---------------------------------------------------------------------------------------------

  /** `entry` has another upstream than the provider has now; if there is none, than a key left under the
      id was entered for. */
  predicate Moves(setup: Setup, t: Traced, id: Id, entry: Entry) {
    var current := Current(setup, t.s, id);
    if current.Some? then Norm(setup, current.value.config) != Norm(setup, entry.config)
    else id !in t.enteredFor || t.enteredFor[id] != Norm(setup, entry.config)
  }

  /** The three ways: a key is written whose provider has moved since the request looked; a row of another
      upstream is written while a key is there, written since the request cleared it or looked; a row goes,
      its key still there, over a file entry of another upstream. */
  predicate Parts(setup: Setup, w: World, e: Event) {
    Lands(w, e) && e.ok &&
    match w.flights[e.f]
    case Keying(id, _, upstream) =>
      var current := Current(setup, w.t.s, id);
      current.Some? && Norm(setup, current.value.config) != upstream
    case Writing(id, entry) => id !in setup.reserved && id in w.t.s.keys && Moves(setup, w.t, id, entry)
    case Removing(id) =>
      && id in w.t.s.store && id in w.t.s.keys && id in setup.file
      && Norm(setup, setup.file[id]) != Norm(setup, w.t.s.store[id].config)
    case _ => false
  }

  function IdOf(w: World, e: Event): Id {
    if Lands(w, e) then w.flights[e.f].id else ""
  }

  lemma OthersStay(setup: Setup, w: World, e: Event, id: Id)
    requires BelongsAt(setup, w.t, id) && (Lands(w, e) ==> id != IdOf(w, e))
    ensures BelongsAt(setup, Step(setup, w, e).t, id)
  {
  }

  lemma OwnStaysIff(setup: Setup, w: World, e: Event)
    requires Lands(w, e) && BelongsAt(setup, w.t, IdOf(w, e))
    ensures BelongsAt(setup, Step(setup, w, e).t, IdOf(w, e)) <==> !Parts(setup, w, e)
  {
  }

  /** In every interleaving, every console key stays with the upstream it was entered for at every step but
      exactly those. */
  lemma PartsIff(setup: Setup, w: World, e: Event)
    requires Belongs(setup, w.t)
    ensures Belongs(setup, Step(setup, w, e).t) <==> !Parts(setup, w, e)
  {
    var v := Step(setup, w, e);
    if Lands(w, e) {
      assert BelongsAt(setup, w.t, IdOf(w, e));
      OwnStaysIff(setup, w, e);
    }
    if Parts(setup, w, e) {
      assert !BelongsAt(setup, v.t, IdOf(w, e));
    } else {
      forall id ensures BelongsAt(setup, v.t, id) {
        assert BelongsAt(setup, w.t, id);
        if !Lands(w, e) || id != IdOf(w, e) { OthersStay(setup, w, e, id); }
      }
    }
  }

  /** Once the key of a deleted provider is gone, nothing of it is left to go astray. */
  lemma ForgettingMends(setup: Setup, w: World, e: Event)
    requires Lands(w, e) && e.ok && w.flights[e.f].Forgetting?
    requires forall id {:trigger BelongsAt(setup, w.t, id)} :: id != w.flights[e.f].id ==> BelongsAt(setup, w.t, id)
    ensures Belongs(setup, Step(setup, w, e).t)
  {
    forall id ensures BelongsAt(setup, Step(setup, w, e).t, id) {
      if id != w.flights[e.f].id {
        assert BelongsAt(setup, w.t, id);
        OthersStay(setup, w, e, id);
      }
    }
  }

  // ---------------------------------------------------------------------------------------------
  // One request at a time for each provider
  // ---------------------------------------------------------------------------------------------

  predicate Arrives(e: Event) {
    e.PostArrives? || e.PutArrives? || e.DeleteArrives? || e.SecretArrives? || e.UnsecretArrives?
  }

  /** A request that arrives finds none under way for its provider; calls come as they will. */
  ghost predicate Alone(w: World, e: Event) {
    Arrives(e) ==> forall f :: f in w.flights && !w.flights[f].Calling? ==> w.flights[f].id != e.id
  }

  ghost predicate AloneRun(setup: Setup, w: World, events: seq<Event>)
    decreases |events|
  {
    events != [] ==> Alone(w, events[0]) && AloneRun(setup, Step(setup, w, events[0]), events[1..])
  }

  /** What a request looked up is still so. */
  predicate UpToDate(setup: Setup, s: State, flight: Flight) {
    var current := Current(setup, s, flight.id);
    match flight
    case Keying(_, _, upstream) => current.Some? && Norm(setup, current.value.config) == upstream
    case Looking(_, existing) => current.Some? && current.value.config == existing
    case Writing(id, entry) => id in s.keys ==> current.Some? && Norm(setup, current.value.config) == Norm(setup, entry.config)
    case _ => true
  }

  ghost predicate Apart(w: World) {
    forall f, g :: f in w.flights && g in w.flights && f != g && !w.flights[f].Calling? && !w.flights[g].Calling? ==>
      w.flights[f].id != w.flights[g].id
  }

  ghost predicate InOrder(setup: Setup, w: World) {
    && (forall f {:trigger w.flights[f]} :: f in w.flights ==> UpToDate(setup, w.t.s, w.flights[f]))
    && Apart(w)
  }

  lemma OthersUpToDate(setup: Setup, w: World, e: Event, flight: Flight)
    requires UpToDate(setup, w.t.s, flight)
    requires Lands(w, e) ==> flight.id != IdOf(w, e) || flight.Calling? || w.flights[e.f].Calling?
    ensures UpToDate(setup, Step(setup, w, e).t.s, flight)
  {
  }

  lemma OwnUpToDate(setup: Setup, w: World, e: Event)
    requires Lands(w, e) || e.PutBody?
    requires e.f in w.flights && UpToDate(setup, w.t.s, w.flights[e.f])
    ensures var v := Step(setup, w, e);
            e.f in v.flights ==> v.flights[e.f].id == w.flights[e.f].id && UpToDate(setup, v.t.s, v.flights[e.f])
  {
  }

  lemma StepKeepsOrder(setup: Setup, w: World, e: Event)
    requires InOrder(setup, w) && Alone(w, e)
    ensures InOrder(setup, Step(setup, w, e))
  {
    var v := Step(setup, w, e);
    forall f | f in v.flights ensures UpToDate(setup, v.t.s, v.flights[f]) {
      if f in w.flights && v.flights[f] == w.flights[f] && (Lands(w, e) ==> f != e.f) {
        assert UpToDate(setup, w.t.s, w.flights[f]);
        OthersUpToDate(setup, w, e, w.flights[f]);
      } else if f in w.flights {
        assert UpToDate(setup, w.t.s, w.flights[f]);
        OwnUpToDate(setup, w, e);
      }
    }
    IdsStayApart(setup, w, e);
  }

  lemma IdsStayApart(setup: Setup, w: World, e: Event)
    requires Alone(w, e) && Apart(w)
    ensures Apart(Step(setup, w, e))
  {
    var v := Step(setup, w, e);
    forall f | f in v.flights
      ensures if f in w.flights then v.flights[f].id == w.flights[f].id && (v.flights[f].Calling? <==> w.flights[f].Calling?)
              else f == e.f && (v.flights[f].Calling? || (Arrives(e) && v.flights[f].id == e.id))
    {
    }
  }

  /** With one request at a time for each provider, only a delete over a file entry of another upstream
      parts a key from its upstream, until it has dropped the key. */
  lemma OnlyDeletesPart(setup: Setup, w: World, e: Event)
    requires InOrder(setup, w) && Parts(setup, w, e)
    ensures w.flights[e.f].Removing? && w.flights[e.f].id in setup.file
  {
    assert UpToDate(setup, w.t.s, w.flights[e.f]);
  }

  lemma {:induction false} AloneKeepsOrder(setup: Setup, w: World, events: seq<Event>)
    requires InOrder(setup, w) && AloneRun(setup, w, events)
    ensures InOrder(setup, Run(setup, w, events))
    decreases |events|
  {
    if events != [] {
      StepKeepsOrder(setup, w, events[0]);
      AloneKeepsOrder(setup, Step(setup, w, events[0]), events[1..]);
    }
  }

  /** So a lock for each provider would be enough: in every run under one, from any start, the only step
      that can part a key from its upstream is that of a delete. */
  lemma LockedRunsPartOnlyByDelete(setup: Setup, t: Traced, events: seq<Event>, e: Event)
    requires AloneRun(setup, World(t, map[]), events) && Parts(setup, Run(setup, World(t, map[]), events), e)
    ensures var w := Run(setup, World(t, map[]), events);
            w.flights[e.f].Removing? && w.flights[e.f].id in setup.file
  {
    AloneKeepsOrder(setup, World(t, map[]), events);
    OnlyDeletesPart(setup, Run(setup, World(t, map[]), events), e);
  }

  // ---------------------------------------------------------------------------------------------
  // What leaves
  // ---------------------------------------------------------------------------------------------

  /** A variable that holds a key was paired with this provider's upstream at the start. */
  predicate PairOk(setup: Setup, start: State, config: Config) {
    config.apiKeyEnv.Some? && config.apiKeyEnv.value != "" && HoldsKey(setup, config.apiKeyEnv.value) ==>
      Paired(setup, start, config.apiKeyEnv.value, Norm(setup, config))
  }

  predicate FlightPaired(setup: Setup, start: State, flight: Flight) {
    match flight
    case Looking(_, existing) => PairOk(setup, start, existing)
    case Clearing(_, entry) => PairOk(setup, start, entry.config)
    case Writing(_, entry) => PairOk(setup, start, entry.config)
    case Calling(_, config) => PairOk(setup, start, config)
    case _ => true
  }

  ghost predicate EnvInv(setup: Setup, start: State, w: World) {
    && NoNewPairs(setup, start, w.t.s)
    && EnvFaithful(setup, start, w.t)
    && (forall f {:trigger w.flights[f]} :: f in w.flights ==> FlightPaired(setup, start, w.flights[f]))
  }

  lemma CurrentIsPaired(setup: Setup, start: State, s: State, id: Id)
    requires NoNewPairs(setup, start, s) && Current(setup, s, id).Some?
    ensures PairOk(setup, start, Current(setup, s, id).value.config)
  {
    var config := Current(setup, s, id).value.config;
    if config.apiKeyEnv.Some? && config.apiKeyEnv.value != "" && HoldsKey(setup, config.apiKeyEnv.value) {
      var name, target := config.apiKeyEnv.value, Norm(setup, config);
      if id in s.store {
        assert Names(s.store[id].config, name);
      } else {
        assert Pairs(setup, setup.file[id], name, target);
      }
      assert Paired(setup, s, name, target);
    }
  }

  /** What is allowed is paired, even if the provider that was looked up has moved since. */
  lemma AllowedIsPaired(setup: Setup, start: State, s: State, id: Id, next: Config, previous: Option<Config>)
    requires NoNewPairs(setup, start, s) && PairingAllowed(setup, s.store, id, next, previous)
    requires previous.Some? ==> PairOk(setup, start, previous.value)
    ensures PairOk(setup, start, next)
  {
    if next.apiKeyEnv.Some? && next.apiKeyEnv.value != "" && HoldsKey(setup, next.apiKeyEnv.value) {
      var name, target := next.apiKeyEnv.value, Norm(setup, next);
      if !(previous.Some? && Pairs(setup, previous.value, name, target)) {
        assert Paired(setup, s, name, target);
      }
    }
  }

  lemma RowIsPaired(setup: Setup, start: State, s: State, id: Id, entry: Entry)
    requires NoNewPairs(setup, start, s) && PairOk(setup, start, entry.config)
    ensures NoNewPairs(setup, start, s.(store := s.store[id := entry]))
  {
    var v := s.(store := s.store[id := entry]);
    forall name, target | name != "" && Paired(setup, v, name, target) ensures Paired(setup, start, name, target) {
      if !(exists f | f in setup.file :: Names(setup.file[f], name) && setup.upstreamKey(setup.file[f].upstream) == target) {
        var i :| i in v.store && Names(v.store[i].config, name) && setup.upstreamKey(v.store[i].config.upstream) == target;
        if i != id {
          assert Names(s.store[i].config, name);
          assert Paired(setup, s, name, target);
        }
      } else {
        assert Paired(setup, s, name, target);
      }
    }
  }

  lemma FewerRowsArePaired(setup: Setup, start: State, s: State, id: Id)
    requires NoNewPairs(setup, start, s)
    ensures NoNewPairs(setup, start, s.(store := s.store - {id}))
  {
    var v := s.(store := s.store - {id});
    forall name, target | name != "" && Paired(setup, v, name, target) ensures Paired(setup, start, name, target) {
      SmallerIsPaired(setup, s, v, name, target);
      assert Paired(setup, s, name, target);
    }
  }

  lemma SmallerIsPaired(setup: Setup, s: State, v: State, name: string, target: string)
    requires forall id :: id in v.store ==> id in s.store && v.store[id] == s.store[id]
    requires Paired(setup, v, name, target)
    ensures Paired(setup, s, name, target)
  {
    if !(exists f | f in setup.file :: Names(setup.file[f], name) && setup.upstreamKey(setup.file[f].upstream) == target) {
      var i :| i in v.store && Names(v.store[i].config, name) && setup.upstreamKey(v.store[i].config.upstream) == target;
      assert i in s.store && Names(s.store[i].config, name);
    }
  }

  lemma SameRowsArePaired(setup: Setup, start: State, s: State, v: State)
    requires NoNewPairs(setup, start, s) && v.store == s.store
    ensures NoNewPairs(setup, start, v)
  {
    forall name, target | name != "" && Paired(setup, v, name, target) ensures Paired(setup, start, name, target) {
      assert Paired(setup, s, name, target);
    }
  }

  lemma LandingKeepsPairs(setup: Setup, start: State, t: Traced, flight: Flight, ok: bool)
    requires NoNewPairs(setup, start, t.s) && FlightPaired(setup, start, flight)
    ensures NoNewPairs(setup, start, Landed(setup, t, flight, ok).0.s)
  {
    var v := Landed(setup, t, flight, ok).0.s;
    match flight
    case Writing(id, entry) => if v.store != t.s.store { RowIsPaired(setup, start, t.s, id, entry); }
    case Removing(id) => FewerRowsArePaired(setup, start, t.s, id);
    case _ => SameRowsArePaired(setup, start, t.s, v);
  }

  lemma EnvSendIsPaired(setup: Setup, start: State, w: World, e: Event, sending: Sending)
    requires EnvInv(setup, start, w) && sending in Step(setup, w, e).t.sent && sending !in w.t.sent && sending.origin.Env?
    ensures Paired(setup, start, sending.origin.name, sending.to) && sending.key == setup.env[sending.origin.name]
  {
    match e
    case Proceeds(f, _) => assert FlightPaired(setup, start, w.flights[f]);
    case Asks(id, upstream, typed, envName) =>
      var r := Form(id, upstream, typed, envName);
      EnvKeyGoesWherePaired(setup, w.t.s, r);
      assert Paired(setup, w.t.s, sending.origin.name, sending.to);
    case _ =>
  }

  lemma NewFlightIsPaired(setup: Setup, start: State, w: World, e: Event, f: FlightId)
    requires EnvInv(setup, start, w) && f in Step(setup, w, e).flights
    ensures FlightPaired(setup, start, Step(setup, w, e).flights[f])
  {
    var v := Step(setup, w, e);
    if f in w.flights { assert FlightPaired(setup, start, w.flights[f]); }
    match e
    case PostArrives(g, id, entry) =>
      if f == g && f !in w.flights { AllowedIsPaired(setup, start, w.t.s, id, entry.config, None); }
    case PutArrives(g, id) => if f == g && f !in w.flights { CurrentIsPaired(setup, start, w.t.s, id); }
    case CallArrives(g, id) => if f == g && f !in w.flights { CurrentIsPaired(setup, start, w.t.s, id); }
    case PutBody(g, bodyId, entry) =>
      if f == g && v.flights[f] != w.flights[f] {
        AllowedIsPaired(setup, start, w.t.s, w.flights[f].id, entry.config, Some(w.flights[f].existing));
      }
    case _ =>
  }

  lemma StepKeepsEnv(setup: Setup, start: State, w: World, e: Event)
    requires EnvInv(setup, start, w)
    ensures EnvInv(setup, start, Step(setup, w, e))
  {
    var v := Step(setup, w, e);
    if Lands(w, e) {
      LandingKeepsPairs(setup, start, w.t, w.flights[e.f], e.ok);
    } else {
      SameRowsArePaired(setup, start, w.t.s, v.t.s);
    }
    forall f | f in v.flights ensures FlightPaired(setup, start, v.flights[f]) {
      NewFlightIsPaired(setup, start, w, e, f);
    }
    forall sending | sending in v.t.sent && sending.origin.Env?
      ensures Paired(setup, start, sending.origin.name, sending.to) && sending.key == setup.env[sending.origin.name]
    {
      if sending !in w.t.sent { EnvSendIsPaired(setup, start, w, e, sending); }
    }
  }

  lemma {:induction false} RunKeepsEnv(setup: Setup, start: State, w: World, events: seq<Event>)
    requires EnvInv(setup, start, w)
    ensures EnvInv(setup, start, Run(setup, w, events))
    decreases |events|
  {
    if events != [] {
      StepKeepsEnv(setup, start, w, events[0]);
      RunKeepsEnv(setup, start, Step(setup, w, events[0]), events[1..]);
    }
  }

  /** Environment keys need no lock: in every interleaving, one only ever goes to an upstream its variable
      was paired with at the start. */
  lemma EnvKeysGoWherePairedTogether(setup: Setup, t: Traced, events: seq<Event>, sending: Sending)
    requires t.sent == {}
    requires sending in Run(setup, World(t, map[]), events).t.sent && sending.origin.Env?
    ensures Paired(setup, t.s, sending.origin.name, sending.to) && sending.key == setup.env[sending.origin.name]
  {
    RunKeepsEnv(setup, t.s, World(t, map[]), events);
  }

  /** A test or proxied call that goes on although the provider it looked up has moved, with a console key there now. */
  predicate StaleCall(setup: Setup, w: World, e: Event) {
    Lands(w, e) && w.flights[e.f].Calling? &&
    var current := Current(setup, w.t.s, w.flights[e.f].id);
    && w.flights[e.f].id in w.t.s.keys
    && (current.None? || Norm(setup, current.value.config) != Norm(setup, w.flights[e.f].config))
  }

  /** The console key a test or proxied call sends belongs where it sends it if and only if the provider has
      not moved since the call looked it up; and it may have, with every key in its place all the time. */
  lemma CallIsRightIff(setup: Setup, w: World, e: Event)
    requires Belongs(setup, w.t) && Lands(w, e) && w.flights[e.f].Calling?
    requires w.flights[e.f].id in w.t.s.keys && Current(setup, w.t.s, w.flights[e.f].id).Some?
    ensures w.flights[e.f].id in w.t.enteredFor
    ensures w.t.enteredFor[w.flights[e.f].id] == Norm(setup, w.flights[e.f].config) <==> !StaleCall(setup, w, e)
  {
    assert BelongsAt(setup, w.t, w.flights[e.f].id);
  }

  ghost predicate Undisturbed(setup: Setup, w: World, events: seq<Event>)
    decreases |events|
  {
    events != [] ==>
      && !Parts(setup, w, events[0]) && !StaleCall(setup, w, events[0])
      && Undisturbed(setup, Step(setup, w, events[0]), events[1..])
  }

  ghost predicate ConsoleInv(setup: Setup, start: State, w: World) {
    && Belongs(setup, w.t)
    && (forall id {:trigger KeyWasEntered(w.t, id)} :: KeyWasEntered(w.t, id))
    && (forall sending :: sending in w.t.sent && sending.origin.Console? ==> Faithful(setup, start, w.t, sending))
  }

  lemma StepKeepsConsole(setup: Setup, start: State, w: World, e: Event)
    requires ConsoleInv(setup, start, w) && !Parts(setup, w, e) && !StaleCall(setup, w, e)
    ensures ConsoleInv(setup, start, Step(setup, w, e))
  {
    var v := Step(setup, w, e);
    PartsIff(setup, w, e);
    forall id ensures KeyWasEntered(v.t, id) { assert KeyWasEntered(w.t, id); }
    forall sending | sending in v.t.sent && sending.origin.Console? ensures Faithful(setup, start, v.t, sending) {
      if sending in w.t.sent {
        assert Faithful(setup, start, w.t, sending);
      } else {
        assert BelongsAt(setup, w.t, sending.id) && KeyWasEntered(w.t, sending.id);
      }
    }
  }

  lemma {:induction false} UndisturbedIsFaithful(setup: Setup, start: State, w: World, events: seq<Event>)
    requires ConsoleInv(setup, start, w) && Undisturbed(setup, w, events)
    ensures ConsoleInv(setup, start, Run(setup, w, events))
    decreases |events|
  {
    if events != [] {
      StepKeepsConsole(setup, start, w, events[0]);
      UndisturbedIsFaithful(setup, start, Step(setup, w, events[0]), events[1..]);
    }
  }

  /** In every interleaving without such a step, a console key only ever goes to an upstream it was entered
      for under that id. */
  lemma ConsoleKeysGoWhereEntered(setup: Setup, start: Traced, events: seq<Event>, sending: Sending)
    requires Start(setup, start) && Undisturbed(setup, World(start, map[]), events)
    requires sending in Run(setup, World(start, map[]), events).t.sent && sending.origin.Console?
    ensures Entered(sending.id, sending.key, sending.to) in Run(setup, World(start, map[]), events).t.entered
  {
    UndisturbedIsFaithful(setup, start.s, World(start, map[]), events);
  }

  // ---------------------------------------------------------------------------------------------
  // Each of them happens
  // ---------------------------------------------------------------------------------------------

  ghost predicate Leads(setup: Setup, w: World, v: World) {
    exists events :: Run(setup, w, events) == v
  }

  lemma LeadsNowhere(setup: Setup, w: World)
    ensures Leads(setup, w, w)
  {
    assert Run(setup, w, []) == w;
  }

  lemma {:induction false} RunThen(setup: Setup, w: World, events: seq<Event>, e: Event)
    ensures Run(setup, w, events + [e]) == Step(setup, Run(setup, w, events), e)
    decreases |events|
  {
    if events == [] {
      assert [] + [e] == [e] && [e][1..] == [];
      assert Run(setup, w, [e]) == Run(setup, Step(setup, w, e), []);
    } else {
      assert (events + [e])[1..] == events[1..] + [e];
      RunThen(setup, Step(setup, w, events[0]), events[1..], e);
    }
  }

  lemma LeadsOn(setup: Setup, w: World, v: World, e: Event)
    requires Leads(setup, w, v)
    ensures Leads(setup, w, Step(setup, v, e))
  {
    var events :| Run(setup, w, events) == v;
    RunThen(setup, w, events, e);
  }

  /** One stored provider and no key. */
  predicate Fresh(setup: Setup, t: Traced, id: Id, here: Config, there: Config) {
    && t == Traced(State(map[id := Entry(here, true)], map[]), map[], {}, {})
    && id !in setup.reserved && here.apiKeyEnv.None? && there.apiKeyEnv.None?
    && Norm(setup, here) != Norm(setup, there)
  }

  /** A `PUT` that finds no key to clear, up to the write of its row. */
  lemma PutWaits(setup: Setup, o: World, w: World, f: FlightId, id: Id, there: Config) returns (v: World)
    requires Leads(setup, o, w) && f !in w.flights && id in w.t.s.store && id !in w.t.s.keys
    requires there.apiKeyEnv.None?
    ensures Leads(setup, o, v)
    ensures v == World(w.t, w.flights[f := Writing(id, Entry(there, true))])
  {
    var w1 := Step(setup, w, PutArrives(f, id));
    LeadsOn(setup, o, w, PutArrives(f, id));
    v := Step(setup, w1, PutBody(f, id, Entry(there, true)));
    LeadsOn(setup, o, w1, PutBody(f, id, Entry(there, true)));
  }

  /** The provider is moved: a whole `PUT`. */
  lemma PutLands(setup: Setup, o: World, w: World, f: FlightId, id: Id, there: Config) returns (v: World)
    requires Leads(setup, o, w) && f !in w.flights && id in w.t.s.store && id !in w.t.s.keys && id !in setup.reserved
    requires there.apiKeyEnv.None?
    ensures Leads(setup, o, v)
    ensures v == World(w.t.(s := w.t.s.(store := w.t.s.store[id := Entry(there, true)])), w.flights)
  {
    var w1 := PutWaits(setup, o, w, f, id, there);
    v := Step(setup, w1, Proceeds(f, true));
    LeadsOn(setup, o, w1, Proceeds(f, true));
    assert v.flights == w.flights;
  }

  /** A key is set: a whole request. */
  lemma SecretLands(setup: Setup, o: World, w: World, f: FlightId, id: Id, key: string) returns (v: World)
    requires Leads(setup, o, w) && f !in w.flights && id in w.t.s.store
    ensures Leads(setup, o, v)
    ensures var u := Norm(setup, w.t.s.store[id].config);
            v == World(Traced(w.t.s.(keys := w.t.s.keys[id := key]), w.t.enteredFor[id := u], w.t.entered + {Entered(id, key, u)}, w.t.sent), w.flights)
  {
    var w1 := Step(setup, w, SecretArrives(f, id, key));
    LeadsOn(setup, o, w, SecretArrives(f, id, key));
    v := Step(setup, w1, Proceeds(f, true));
    LeadsOn(setup, o, w1, Proceeds(f, true));
    assert v.flights == w.flights;
  }

  /** First way: the provider moves between the check of a key and its write. */
  lemma MovedBeforeTheKey(setup: Setup, t: Traced, id: Id, here: Config, there: Config, key: string) returns (v: World)
    requires Fresh(setup, t, id, here, there)
    ensures Leads(setup, World(t, map[]), v) && v.flights == map[] && !Belongs(setup, v.t)
  {
    var o := World(t, map[]);
    LeadsNowhere(setup, o);
    var w1 := Step(setup, o, SecretArrives(1, id, key));
    LeadsOn(setup, o, o, SecretArrives(1, id, key));
    var w2 := PutLands(setup, o, w1, 2, id, there);
    v := Step(setup, w2, Proceeds(1, true));
    LeadsOn(setup, o, w2, Proceeds(1, true));
    assert !BelongsAt(setup, v.t, id);
  }

  /** Second way: a whole setting of a key lands between what a moving `PUT` sees and its row. */
  lemma KeyBeforeTheRow(setup: Setup, t: Traced, id: Id, here: Config, there: Config, key: string) returns (v: World)
    requires Fresh(setup, t, id, here, there)
    ensures Leads(setup, World(t, map[]), v) && v.flights == map[] && !Belongs(setup, v.t)
  {
    var o := World(t, map[]);
    LeadsNowhere(setup, o);
    var w1 := PutWaits(setup, o, o, 1, id, there);
    var w2 := SecretLands(setup, o, w1, 2, id, key);
    v := Step(setup, w2, Proceeds(1, true));
    LeadsOn(setup, o, w2, Proceeds(1, true));
    assert w2.flights == map[1 := Writing(id, Entry(there, true))];
    assert !BelongsAt(setup, v.t, id);
  }

  lemma CallLands(setup: Setup, o: World, w: World, f: FlightId, id: Id, config: Config, key: string) returns (v: World)
    requires Leads(setup, o, w) && f !in w.flights && Current(setup, w.t.s, id).Some? && Current(setup, w.t.s, id).value.config == config
    requires id in w.t.s.keys && w.t.s.keys[id] == key != ""
    ensures Leads(setup, o, v)
    ensures v == World(w.t.(sent := w.t.sent + {Sending(id, Console, key, Norm(setup, config))}), w.flights)
  {
    var w1 := Step(setup, w, CallArrives(f, id));
    LeadsOn(setup, o, w, CallArrives(f, id));
    v := Step(setup, w1, Proceeds(f, true));
    LeadsOn(setup, o, w1, Proceeds(f, true));
    assert v.flights == w.flights;
  }

  /** Third way: between the row and the key of a delete, the key goes out to the file's upstream. */
  lemma DeleteExposesTheKey(setup: Setup, t: Traced, id: Id, here: Config, there: Config, key: string) returns (v: World)
    requires Fresh(setup, t, id, here, there) && id in setup.file && setup.file[id] == there && key != ""
    ensures Leads(setup, World(t, map[]), v) && !Belongs(setup, v.t)
    ensures Sending(id, Console, key, Norm(setup, there)) in v.t.sent
    ensures Entered(id, key, Norm(setup, there)) !in v.t.entered
  {
    var o := World(t, map[]);
    LeadsNowhere(setup, o);
    var w1 := SecretLands(setup, o, o, 1, id, key);
    var w2 := Step(setup, w1, DeleteArrives(2, id));
    LeadsOn(setup, o, w1, DeleteArrives(2, id));
    var w3 := Step(setup, w2, Proceeds(2, true));
    LeadsOn(setup, o, w2, Proceeds(2, true));
    v := CallLands(setup, o, w3, 3, id, there, key);
    assert !BelongsAt(setup, v.t, id);
  }

  /** And a stale call: no key is ever out of place, and yet one goes where it was not entered for. */
  lemma CallAfterAMove(setup: Setup, t: Traced, id: Id, here: Config, there: Config, key: string) returns (v: World)
    requires Fresh(setup, t, id, here, there) && key != ""
    ensures Leads(setup, World(t, map[]), v) && Belongs(setup, v.t)
    ensures Sending(id, Console, key, Norm(setup, here)) in v.t.sent
    ensures Entered(id, key, Norm(setup, here)) !in v.t.entered
  {
    var o := World(t, map[]);
    LeadsNowhere(setup, o);
    var w1 := Step(setup, o, CallArrives(1, id));
    LeadsOn(setup, o, o, CallArrives(1, id));
    var w2 := PutLands(setup, o, w1, 2, id, there);
    var w3 := SecretLands(setup, o, w2, 3, id, key);
    v := Step(setup, w3, Proceeds(1, true));
    LeadsOn(setup, o, w3, Proceeds(1, true));
    SendsToTheOld(setup, w3, id, here, there, key);
  }

  lemma SendsToTheOld(setup: Setup, w: World, id: Id, here: Config, there: Config, key: string)
    requires key != "" && 1 in w.flights && w.flights[1] == Calling(id, here) && Norm(setup, here) != Norm(setup, there)
    requires w.t == Traced(State(map[id := Entry(there, true)], map[id := key]), map[id := Norm(setup, there)],
                           {Entered(id, key, Norm(setup, there))}, {})
    ensures var v := Step(setup, w, Proceeds(1, true));
            && Belongs(setup, v.t)
            && Sending(id, Console, key, Norm(setup, here)) in v.t.sent
            && Entered(id, key, Norm(setup, here)) !in v.t.entered
  {
    forall i ensures BelongsAt(setup, Step(setup, w, Proceeds(1, true)).t, i) { }
  }
}

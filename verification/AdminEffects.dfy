/** What an administrator is told is what happened: the rows and keys each answered request leaves, when
    it is answered so, and what calls carry afterwards, over any run of requests. */
module AdminEffects {
  import opened Wrappers
  import opened ProviderCatalog
  import opened AdminApi
  import opened AdminKeyProperties

  function KeyOf(s: State, id: Id): Option<string> {
    if id in s.keys then Some(s.keys[id]) else None
  }

  /** The stored row of an id, as the console shows it. */
  function StoredRow(setup: Setup, id: Id, entry: Entry): Resolved {
    Resolved(id, entry.config, entry.enabled, Store, id in setup.file)
  }

  /** Providers other than `id` keep their row and their key. */
  ghost predicate OthersKeep(setup: Setup, s: State, t: State, id: Id) {
    forall other {:trigger Current(setup, t, other)} :: other != id ==>
      Current(setup, t, other) == Current(setup, s, other) && KeyOf(t, other) == KeyOf(s, other)
  }

  predicate Moves(setup: Setup, s: State, id: Id, upstream: string) {
    Current(setup, s, id).Some?
    && setup.upstreamKey(Current(setup, s, id).value.config.upstream) != setup.upstreamKey(upstream)
  }

  // ---------------------------------------------------------------------------------------------
  // One request
  // ---------------------------------------------------------------------------------------------

  /** What a request answered as done leaves: for its own id. */
  predicate Leaves(setup: Setup, s: State, t: State, r: Request) {
    match r
    case Post(id, entry, _) =>
      Current(setup, s, id).None? && Current(setup, t, id) == Some(StoredRow(setup, id, entry)) && KeyOf(t, id).None?
    case PutProvider(id, bodyId, entry, _) =>
      && Current(setup, s, id).Some? && bodyId == id
      && Current(setup, t, id) == Some(StoredRow(setup, id, entry))
      && KeyOf(t, id) == if Moves(setup, s, id, entry.config.upstream) then None else KeyOf(s, id)
    case Delete(id, disk) =>
      && id in s.store && id !in t.store
      && Current(setup, t, id) == (if id in setup.file then Some(Resolved(id, setup.file[id], true, File, false)) else None)
      && KeyOf(t, id) == if disk.keysWritable && disk.keysLand then None else KeyOf(s, id)
    case SetSecret(id, key, _) =>
      Current(setup, s, id).Some? && Current(setup, t, id) == Current(setup, s, id) && KeyOf(t, id) == Some(key)
    case ClearSecret(id, _) =>
      Current(setup, s, id).Some? && Current(setup, t, id) == Current(setup, s, id) && KeyOf(t, id).None?
    case Use(_) => t == s
    case Form(_, _, _, _) => t == s
  }

  lemma DoneLeaves(setup: Setup, s: State, r: Request)
    requires Handled(setup, s, r).response.Done?
    ensures Leaves(setup, s, Handled(setup, s, r).state, r)
    ensures OthersKeep(setup, s, Handled(setup, s, r).state, r.id)
  {
    var t := Handled(setup, s, r).state;
    forall other | other != r.id ensures Current(setup, t, other) == Current(setup, s, other) && KeyOf(t, other) == KeyOf(s, other) {
      assert other in t.store <==> other in s.store;
      assert other in t.keys <==> other in s.keys;
    }
  }

  /** A refused request changes nothing, but for this: a provider that was to be created, or to be given
      another upstream, and could not be written has lost the console key it had. */
  lemma RefusedLeaves(setup: Setup, s: State, r: Request)
    requires Handled(setup, s, r).response.Refused?
    ensures var t := Handled(setup, s, r).state;
            && t.store == s.store
            && (t == s || (t.keys == s.keys - {r.id}
                           && (r.Post? || (r.PutProvider? && Moves(setup, s, r.id, r.entry.config.upstream)))
                           && (r.id in setup.reserved || !r.disk.storeLands)))
  {
    assert r.id !in s.keys ==> s.keys - {r.id} == s.keys;
  }

  /** The key of `id`, if there is one, can be taken out. */
  predicate KeyCanGo(s: State, id: Id, disk: Disk) {
    KeyOf(s, id).Some? ==> disk.keysWritable && disk.keysLand
  }

  /** The environment pairs this row would add. */
  ghost predicate AddsNoPair(setup: Setup, s: State, id: Id, config: Config) {
    NoNewPairs(setup, s, s.(store := s.store[id := Entry(config, true)]))
  }

  /** The check on environment keys turns a row down exactly when the row would pair a variable that
      holds a key with an upstream it is not paired with yet. */
  lemma PairingIsExact(setup: Setup, s: State, id: Id, config: Config)
    ensures var previous := if Current(setup, s, id).Some? then Some(Current(setup, s, id).value.config) else None;
            PairingAllowed(setup, s.store, id, config, previous) <==> AddsNoPair(setup, s, id, config)
  {
    var previous := if Current(setup, s, id).Some? then Some(Current(setup, s, id).value.config) else None;
    var t := s.(store := s.store[id := Entry(config, true)]);
    if PairingAllowed(setup, s.store, id, config, previous) {
      forall name, target | name != "" && Paired(setup, t, name, target) ensures Paired(setup, s, name, target) {
        PairFromBefore(setup, s, id, config, name, target);
      }
    } else {
      var name, target := config.apiKeyEnv.value, setup.upstreamKey(config.upstream);
      assert t.store[id].config == config && Pairs(setup, t.store[id].config, name, target);
      assert Paired(setup, t, name, target);
    }
  }

  lemma PairFromBefore(setup: Setup, s: State, id: Id, config: Config, name: string, target: string)
    requires PairingAllowed(setup, s.store, id, config,
                            if Current(setup, s, id).Some? then Some(Current(setup, s, id).value.config) else None)
    requires name != "" && Paired(setup, s.(store := s.store[id := Entry(config, true)]), name, target)
    ensures Paired(setup, s, name, target)
  {
    var t := s.(store := s.store[id := Entry(config, true)]);
    if !exists f | f in setup.file :: Names(setup.file[f], name) && setup.upstreamKey(setup.file[f].upstream) == target {
      var other :| other in t.store && Names(t.store[other].config, name) && setup.upstreamKey(t.store[other].config.upstream) == target;
      if other != id {
        assert Names(s.store[other].config, name);
      } else if id in s.store && Pairs(setup, s.store[id].config, name, target) {
      } else {
        assert config.apiKeyEnv == Some(name) && setup.upstreamKey(config.upstream) == target;
      }
    }
  }

  /** Exactly when each request is answered as done. */
  ghost predicate CanBeDone(setup: Setup, s: State, r: Request) {
    match r
    case Post(id, entry, disk) =>
      && disk.storeWritable && disk.storeLands && id !in setup.reserved && Current(setup, s, id).None?
      && AddsNoPair(setup, s, id, entry.config) && KeyCanGo(s, id, disk)
    case PutProvider(id, bodyId, entry, disk) =>
      && disk.storeWritable && disk.storeLands && id !in setup.reserved && Current(setup, s, id).Some? && bodyId == id
      && AddsNoPair(setup, s, id, entry.config)
      && (Moves(setup, s, id, entry.config.upstream) ==> KeyCanGo(s, id, disk))
    case Delete(id, disk) => disk.storeWritable && disk.storeLands && id in s.store
    case SetSecret(id, _, disk) => disk.keysWritable && disk.keysLand && Current(setup, s, id).Some?
    case ClearSecret(id, disk) => disk.keysWritable && Current(setup, s, id).Some? && KeyCanGo(s, id, disk)
    case Use(_) => true
    case Form(_, _, _, _) => true
  }

  lemma DoneIff(setup: Setup, s: State, r: Request)
    ensures Handled(setup, s, r).response.Done? <==> CanBeDone(setup, s, r)
  {
    if r.Post? || r.PutProvider? {
      PairingIsExact(setup, s, r.id, r.entry.config);
    }
  }

  /** A refusal names something that is so. */
  lemma RefusalsAreTrue(setup: Setup, s: State, r: Request, code: Code)
    requires Handled(setup, s, r).response == Refused(code)
    ensures match code
            case NotFound => !r.Post? && Current(setup, s, r.id).None?
            case ProviderExists => r.Post? && Current(setup, s, r.id).Some?
            case ReservedId => r.Post? && r.id in setup.reserved
            case ReservedName => r.PutProvider? && r.id in setup.reserved
            case IdMismatch => r.PutProvider? && r.bodyId != r.id
            case ProviderFromFile => r.Delete? && r.id in setup.file && r.id !in s.store
            case ApiKeyEnvNotAllowed => (r.Post? || r.PutProvider?) && !AddsNoPair(setup, s, r.id, r.entry.config)
            case StoreUnwritable =>
              !(r.disk.storeWritable && r.disk.storeLands) || !(r.disk.keysWritable && r.disk.keysLand)
            case CredentialMissing => false
    ensures !r.Use? && !r.Form?
  {
    if r.Post? || r.PutProvider? { PairingIsExact(setup, s, r.id, r.entry.config); }
  }

  // ---------------------------------------------------------------------------------------------
  // Which key a call carries
  // ---------------------------------------------------------------------------------------------

  /** A provider's own call goes to its upstream with the key set in the console; only where none is set,
      with the one its environment variable holds. */
  lemma OwnCallsPreferTheConsole(setup: Setup, s: State, id: Id)
    requires Current(setup, s, id).Some?
    ensures var config := Current(setup, s, id).value.config;
            var to := setup.upstreamKey(config.upstream);
            match KeyOf(s, id)
            case Some(key) =>
              Sends(setup, s, Use(id)) == if key == "" then Err(CredentialMissing) else Ok(Sending(id, Console, key, to))
            case None =>
              Sends(setup, s, Use(id))
              == match config.apiKeyEnv
                 case Some(name) =>
                   if name != "" && name in setup.env && setup.env[name] != "" then Ok(Sending(id, Env(name), setup.env[name], to))
                   else Err(CredentialMissing)
                 case None => Err(CredentialMissing)
  {
  }

  /** A call described by a form goes where the form says: with the key typed into it, else with the
      stored one if that is this provider's upstream, else with the named variable's if naming it would
      add no pair. */
  lemma FormsPreferWhatWasTyped(setup: Setup, s: State, id: Id, upstream: string, typed: Option<string>, envName: Option<string>)
    ensures var to := setup.upstreamKey(upstream);
            var sends := Sends(setup, s, Form(id, upstream, typed, envName));
            var current := Current(setup, s, id);
            var own := current.Some? && setup.upstreamKey(current.value.config.upstream) == to;
            && (typed.Some? && typed.value != "" ==> sends == Ok(Sending(id, Typed, typed.value, to)))
            && ((typed.None? || typed.value == "") && own && KeyOf(s, id).Some? ==>
                  sends == if KeyOf(s, id).value == "" then Err(CredentialMissing) else Ok(Sending(id, Console, KeyOf(s, id).value, to)))
            && ((typed.None? || typed.value == "") && !(own && KeyOf(s, id).Some?) ==>
                  var name := if envName.Some? then envName else if own then current.value.config.apiKeyEnv else None;
                  if name.Some? && name.value != "" && name.value in setup.env && setup.env[name.value] != "" then
                    sends == if AddsNoPair(setup, s, id, Config(upstream, name, "")) then
                      Ok(Sending(id, Env(name.value), setup.env[name.value], to))
                    else Err(ApiKeyEnvNotAllowed)
                  else sends == Err(CredentialMissing))
  {
    var current := Current(setup, s, id);
    var own := current.Some? && setup.upstreamKey(current.value.config.upstream) == setup.upstreamKey(upstream);
    var name := if envName.Some? then envName else if own then current.value.config.apiKeyEnv else None;
    PairingIsExact(setup, s, id, Config(upstream, name, ""));
  }

  // ---------------------------------------------------------------------------------------------
  // Runs
  // ---------------------------------------------------------------------------------------------

  /** No key of `id` is set in the run. */
  predicate NeverSet(setup: Setup, t: Traced, requests: seq<Request>, id: Id)
    decreases |requests|
  {
    requests != [] ==>
      && !(requests[0].SetSecret? && requests[0].id == id && Handled(setup, t.s, requests[0]).response.Done?)
      && NeverSet(setup, Step(setup, t, requests[0]), requests[1..], id)
  }

  lemma NoKeyStep(setup: Setup, t: Traced, r: Request, id: Id)
    requires KeyOf(t.s, id).None?
    requires !(r.SetSecret? && r.id == id && Handled(setup, t.s, r).response.Done?)
    ensures KeyOf(Step(setup, t, r).s, id).None?
    ensures forall x :: x in Step(setup, t, r).sent && x !in t.sent && x.id == id ==> !x.origin.Console?
  {
    if Handled(setup, t.s, r).response.Done? {
      DoneLeaves(setup, t.s, r);
      if id != r.id { assert Current(setup, Handled(setup, t.s, r).state, id) == Current(setup, t.s, id); }
    } else {
      RefusedLeaves(setup, t.s, r);
    }
  }

  lemma {:induction false} NoKeyRun(setup: Setup, t: Traced, requests: seq<Request>, id: Id)
    requires KeyOf(t.s, id).None? && NeverSet(setup, t, requests, id)
    ensures t.sent <= Run(setup, t, requests).sent
    ensures forall x :: x in Run(setup, t, requests).sent && x !in t.sent && x.id == id ==> !x.origin.Console?
    decreases |requests|
  {
    if requests != [] {
      NoKeyStep(setup, t, requests[0], id);
      NoKeyRun(setup, Step(setup, t, requests[0]), requests[1..], id);
    }
  }

  /** Requests after which no console key of `id` is left. */
  predicate TakesKeyOut(setup: Setup, s: State, r: Request, id: Id) {
    && r.id == id
    && (r.ClearSecret?
        || (r.Delete? && r.disk.keysWritable && r.disk.keysLand)
        || (r.PutProvider? && Moves(setup, s, id, r.entry.config.upstream))
        || r.Post?)
  }

  /** Once a clear is answered as done, or a creation, a move to another upstream, or a delete that could
      write the key store, no console key is ever sent for that id until one is set again. */
  lemma ClearedKeysAreNeverSent(setup: Setup, t: Traced, r: Request, after: seq<Request>, id: Id)
    requires TakesKeyOut(setup, t.s, r, id) && Handled(setup, t.s, r).response.Done?
    requires NeverSet(setup, Step(setup, t, r), after, id)
    ensures forall x :: x in Run(setup, Step(setup, t, r), after).sent && x !in t.sent && x.id == id ==> !x.origin.Console?
  {
    DoneLeaves(setup, t.s, r);
    assert KeyOf(Step(setup, t, r).s, id).None?;
    assert Step(setup, t, r).sent == t.sent;
    NoKeyRun(setup, Step(setup, t, r), after, id);
  }

  /** Another key of `id` is set, its key cleared, its row deleted, or it is to be moved. */
  predicate Disturbs(setup: Setup, s: State, r: Request, id: Id) {
    && r.id == id
    && (((r.SetSecret? || r.ClearSecret? || r.Delete?) && Handled(setup, s, r).response.Done?)
        || (r.PutProvider? && Moves(setup, s, id, r.entry.config.upstream)))
  }

  predicate Undisturbed(setup: Setup, t: Traced, requests: seq<Request>, id: Id)
    decreases |requests|
  {
    requests != [] ==>
      && !Disturbs(setup, t.s, requests[0], id)
      && Undisturbed(setup, Step(setup, t, requests[0]), requests[1..], id)
  }

  /** `id` is a provider with this console key and upstream. */
  predicate HasKey(setup: Setup, s: State, id: Id, key: string, upstream: string) {
    && KeyOf(s, id) == Some(key) && Current(setup, s, id).Some?
    && setup.upstreamKey(Current(setup, s, id).value.config.upstream) == upstream
  }

  /** Whatever the console key of `id` is used for is used with this key, at this upstream. */
  predicate CarriesOnly(x: Sending, id: Id, key: string, upstream: string) {
    x.id == id && x.origin.Console? ==> x.key == key && x.to == upstream
  }

  lemma KeyStep(setup: Setup, t: Traced, r: Request, id: Id, key: string, upstream: string)
    requires HasKey(setup, t.s, id, key, upstream) && !Disturbs(setup, t.s, r, id)
    ensures HasKey(setup, Step(setup, t, r).s, id, key, upstream)
    ensures forall x :: x in Step(setup, t, r).sent && x !in t.sent ==> CarriesOnly(x, id, key, upstream)
  {
    var u := Handled(setup, t.s, r).state;
    if Handled(setup, t.s, r).response.Done? {
      DoneLeaves(setup, t.s, r);
      if id != r.id { assert Current(setup, u, id) == Current(setup, t.s, id); }
    } else {
      RefusedLeaves(setup, t.s, r);
    }
  }

  lemma {:induction false} KeyRun(setup: Setup, t: Traced, requests: seq<Request>, id: Id, key: string, upstream: string)
    requires HasKey(setup, t.s, id, key, upstream) && Undisturbed(setup, t, requests, id)
    ensures HasKey(setup, Run(setup, t, requests).s, id, key, upstream)
    ensures forall x :: x in Run(setup, t, requests).sent && x !in t.sent ==> CarriesOnly(x, id, key, upstream)
    decreases |requests|
  {
    if requests != [] {
      KeyStep(setup, t, requests[0], id, key, upstream);
      KeyRun(setup, Step(setup, t, requests[0]), requests[1..], id, key, upstream);
    }
  }

  /** A key answered as set is the key: until another is set, it is cleared, or its provider is deleted or
      moved, every console sending of that id carries exactly it, to the upstream it was set for, and the
      provider's own call does. */
  lemma SetKeysAreSent(setup: Setup, t: Traced, key: string, disk: Disk, after: seq<Request>, id: Id)
    requires Handled(setup, t.s, SetSecret(id, key, disk)).response.Done?
    requires Undisturbed(setup, Step(setup, t, SetSecret(id, key, disk)), after, id)
    ensures Current(setup, t.s, id).Some?
    ensures var upstream := setup.upstreamKey(Current(setup, t.s, id).value.config.upstream);
            var u := Run(setup, Step(setup, t, SetSecret(id, key, disk)), after);
            && (forall x :: x in u.sent && x !in t.sent ==> CarriesOnly(x, id, key, upstream))
            && (key != "" ==> Sends(setup, u.s, Use(id)) == Ok(Sending(id, Console, key, upstream)))
  {
    var r := SetSecret(id, key, disk);
    DoneLeaves(setup, t.s, r);
    var upstream := setup.upstreamKey(Current(setup, t.s, id).value.config.upstream);
    var u := Step(setup, t, r);
    assert u.sent == t.sent && HasKey(setup, u.s, id, key, upstream);
    KeyRun(setup, u, after, id, key, upstream);
    OwnCallsPreferTheConsole(setup, Run(setup, u, after).s, id);
  }
}

/** The provider-management requests that decide which key may go to which upstream. The functions say
    what one request does to the provider store and the key store; the `AdminApi` object, which does it
    one write at a time, is proved to do exactly that. */
module AdminApi {
  import opened Wrappers
  import opened ProviderCatalog

  /** What does not change while the process runs. `upstreamKey`: the comparison key of a URL. */
  datatype Setup = Setup(
    file: map<Id, Config>,
    env: map<string, string>,
    reserved: set<Id>,
    upstreamKey: string -> string)

  datatype State = State(store: map<Id, Entry>, keys: map<Id, string>)

  /** How the two files behave during one request. */
  datatype Disk = Disk(storeWritable: bool, keysWritable: bool, storeLands: bool, keysLand: bool)

  datatype Code =
    | StoreUnwritable | NotFound | ReservedId | ReservedName | ProviderExists | IdMismatch
    | ApiKeyEnvNotAllowed | ProviderFromFile | CredentialMissing

  datatype Response = Done | Refused(code: Code)

  datatype Outcome = Outcome(state: State, response: Response)

  predicate HoldsKey(setup: Setup, name: string) {
    name in setup.env && setup.env[name] != ""
  }

  predicate Pairs(setup: Setup, config: Config, name: string, target: string) {
    config.apiKeyEnv == Some(name) && setup.upstreamKey(config.upstream) == target
  }

  function Current(setup: Setup, s: State, id: Id): Option<Resolved> {
    Effective(setup.file, s.store, id)
  }

  /** Whether a provider may name this environment variable together with this upstream. */
  predicate PairingAllowed(setup: Setup, store: map<Id, Entry>, id: Id, next: Config, previous: Option<Config>) {
    next.apiKeyEnv.Some? && next.apiKeyEnv.value != "" ==>
      var name, target := next.apiKeyEnv.value, setup.upstreamKey(next.upstream);
      || (previous.Some? && Pairs(setup, previous.value, name, target))
      || !HoldsKey(setup, name)
      || (exists f | f in setup.file :: Pairs(setup, setup.file[f], name, target))
      || (exists other | other in store :: other != id && Pairs(setup, store[other].config, name, target))
  }

  predicate CanClear(s: State, id: Id, disk: Disk) {
    id in s.keys ==> disk.keysWritable && disk.keysLand
  }

  /** The provider is written under `id`, its console key dropped first if `clear`. */
  function Replaced(setup: Setup, s: State, id: Id, entry: Entry, clear: bool, disk: Disk): Outcome {
    if clear && !CanClear(s, id, disk) then Outcome(s, Refused(StoreUnwritable))
    else
      var keys := if clear then s.keys - {id} else s.keys;
      if id in setup.reserved then Outcome(s.(keys := keys), Refused(ReservedName))
      else if !disk.storeLands then Outcome(s.(keys := keys), Refused(StoreUnwritable))
      else Outcome(State(s.store[id := entry], keys), Done)
  }

  function Posted(setup: Setup, s: State, id: Id, entry: Entry, disk: Disk): Outcome {
    if !disk.storeWritable then Outcome(s, Refused(StoreUnwritable))
    else if id in setup.reserved then Outcome(s, Refused(ReservedId))
    else if Current(setup, s, id).Some? then Outcome(s, Refused(ProviderExists))
    else if !PairingAllowed(setup, s.store, id, entry.config, None) then Outcome(s, Refused(ApiKeyEnvNotAllowed))
    else Replaced(setup, s, id, entry, true, disk)
  }

  function Put(setup: Setup, s: State, id: Id, bodyId: Id, entry: Entry, disk: Disk): Outcome {
    var existing := Current(setup, s, id);
    if !disk.storeWritable then Outcome(s, Refused(StoreUnwritable))
    else if existing.None? then Outcome(s, Refused(NotFound))
    else if bodyId != id then Outcome(s, Refused(IdMismatch))
    else if !PairingAllowed(setup, s.store, id, entry.config, Some(existing.value.config)) then
      Outcome(s, Refused(ApiKeyEnvNotAllowed))
    else
      var moved := setup.upstreamKey(existing.value.config.upstream) != setup.upstreamKey(entry.config.upstream);
      Replaced(setup, s, id, entry, moved, disk)
  }

  /** The row goes first; the key is then dropped as far as possible. */
  function Deleted(setup: Setup, s: State, id: Id, disk: Disk): Outcome {
    if !disk.storeWritable then Outcome(s, Refused(StoreUnwritable))
    else if Current(setup, s, id).None? then Outcome(s, Refused(NotFound))
    else if id !in s.store then Outcome(s, Refused(ProviderFromFile))
    else if !disk.storeLands then Outcome(s, Refused(StoreUnwritable))
    else Outcome(State(s.store - {id}, if CanClear(s, id, disk) then s.keys - {id} else s.keys), Done)
  }

  function SecretSet(setup: Setup, s: State, id: Id, key: string, disk: Disk): Outcome {
    if !disk.keysWritable then Outcome(s, Refused(StoreUnwritable))
    else if Current(setup, s, id).None? then Outcome(s, Refused(NotFound))
    else if !disk.keysLand then Outcome(s, Refused(StoreUnwritable))
    else Outcome(s.(keys := s.keys[id := key]), Done)
  }

  function SecretCleared(setup: Setup, s: State, id: Id, disk: Disk): Outcome {
    if !disk.keysWritable then Outcome(s, Refused(StoreUnwritable))
    else if Current(setup, s, id).None? then Outcome(s, Refused(NotFound))
    else if !CanClear(s, id, disk) then Outcome(s, Refused(StoreUnwritable))
    else Outcome(s.(keys := s.keys - {id}), Done)
  }

  datatype Origin = Typed | Console | Env(name: string)

  /** A key on its way to an upstream. */
  datatype Sending = Sending(id: Id, origin: Origin, key: string, to: string)

  /** The key a provider's own calls carry. */
  function ProviderCredential(setup: Setup, s: State, id: Id): Result<Sending, Code> {
    var provider := Current(setup, s, id);
    if provider.None? then Err(NotFound)
    else
      var config := provider.value.config;
      var to := setup.upstreamKey(config.upstream);
      if id in s.keys then
        if s.keys[id] == "" then Err(CredentialMissing) else Ok(Sending(id, Console, s.keys[id], to))
      else if config.apiKeyEnv.Some? && config.apiKeyEnv.value != "" && HoldsKey(setup, config.apiKeyEnv.value) then
        Ok(Sending(id, Env(config.apiKeyEnv.value), setup.env[config.apiKeyEnv.value], to))
      else Err(CredentialMissing)
  }

  /** The key a call described by a form carries: typed, else the console's, else the environment's. */
  function FormCredential(setup: Setup, s: State, id: Id, upstream: string, typed: Option<string>, envName: Option<string>)
    : Result<Sending, Code>
  {
    var existing := Current(setup, s, id);
    var to := setup.upstreamKey(upstream);
    var same := existing.Some? && setup.upstreamKey(existing.value.config.upstream) == to;
    if typed.Some? && typed.value != "" then Ok(Sending(id, Typed, typed.value, to))
    else if same && id in s.keys then
      if s.keys[id] == "" then Err(CredentialMissing) else Ok(Sending(id, Console, s.keys[id], to))
    else
      var name := if envName.Some? then envName else if same then existing.value.config.apiKeyEnv else None;
      if name.Some? && name.value != "" && HoldsKey(setup, name.value) then
        var previous := if existing.Some? then Some(existing.value.config) else None;
        if PairingAllowed(setup, s.store, id, Config(upstream, name, ""), previous) then
          Ok(Sending(id, Env(name.value), setup.env[name.value], to))
        else Err(ApiKeyEnvNotAllowed)
      else Err(CredentialMissing)
  }

  class AdminApi {
    const setup: Setup
    var store: map<Id, Entry>
    var keys: map<Id, string>

    ghost function Now(): State
      reads this
    {
      State(store, keys)
    }

    constructor (setup: Setup, store: map<Id, Entry>, keys: map<Id, string>)
      ensures this.setup == setup && Now() == State(store, keys)
    {
      this.setup, this.store, this.keys := setup, store, keys;
    }

    /** `KeyStore.remove`: nothing to write when there is no key. */
    method RemoveKey(id: Id, disk: Disk) returns (ok: bool)
      modifies this`keys
      ensures ok == CanClear(old(Now()), id, disk)
      ensures keys == if ok then old(keys) - {id} else old(keys)
    {
      if id !in keys {
        return true;
      }
      ok := disk.keysWritable && disk.keysLand;
      if ok {
        keys := keys - {id};
      }
    }

    method ClearConsoleKeyForNewUpstream(id: Id, disk: Disk) returns (ok: bool)
      modifies this`keys
      ensures ok == CanClear(old(Now()), id, disk)
      ensures keys == if ok then old(keys) - {id} else old(keys)
    {
      if id !in keys {
        return true;
      }
      if !disk.keysWritable {
        return false;
      }
      ok := RemoveKey(id, disk);
    }

    method Upsert(id: Id, entry: Entry, disk: Disk) returns (response: Response)
      modifies this`store
      ensures response == if id in setup.reserved then Refused(ReservedName)
                          else if disk.storeLands then Done else Refused(StoreUnwritable)
      ensures store == if response.Done? then old(store)[id := entry] else old(store)
    {
      if id in setup.reserved {
        return Refused(ReservedName);
      }
      if !disk.storeLands {
        return Refused(StoreUnwritable);
      }
      store := store[id := entry];
      response := Done;
    }

    /** The check on environment keys, in its order: the pair it had, a variable that holds nothing, the
        file's pairs, the other stored providers' pairs. */
    method AssertEnvKeyPairing(id: Id, next: Config, previous: Option<Config>) returns (ok: bool)
      ensures ok == PairingAllowed(setup, store, id, next, previous)
    {
      if next.apiKeyEnv.None? || next.apiKeyEnv.value == "" {
        return true;
      }
      var name := next.apiKeyEnv.value;
      var target := setup.upstreamKey(next.upstream);
      if previous.Some? && previous.value.apiKeyEnv == Some(name) && setup.upstreamKey(previous.value.upstream) == target {
        return true;
      }
      if name !in setup.env || setup.env[name] == "" {
        return true;
      }
      if exists f | f in setup.file :: Pairs(setup, setup.file[f], name, target) {
        return true;
      }
      ok := exists other | other in store :: other != id && Pairs(setup, store[other].config, name, target);
    }

    method HandlePost(id: Id, entry: Entry, disk: Disk) returns (response: Response)
      modifies this`store, this`keys
      ensures Outcome(Now(), response) == Posted(setup, old(Now()), id, entry, disk)
    {
      if !disk.storeWritable {
        return Refused(StoreUnwritable);
      }
      if id in setup.reserved {
        return Refused(ReservedId);
      }
      if Effective(setup.file, store, id).Some? {
        return Refused(ProviderExists);
      }
      var allowed := AssertEnvKeyPairing(id, entry.config, None);
      if !allowed {
        return Refused(ApiKeyEnvNotAllowed);
      }
      var cleared := ClearConsoleKeyForNewUpstream(id, disk);
      if !cleared {
        return Refused(StoreUnwritable);
      }
      response := Upsert(id, entry, disk);
    }

    method HandlePut(id: Id, bodyId: Id, entry: Entry, disk: Disk) returns (response: Response)
      modifies this`store, this`keys
      ensures Outcome(Now(), response) == Put(setup, old(Now()), id, bodyId, entry, disk)
    {
      if !disk.storeWritable {
        return Refused(StoreUnwritable);
      }
      var existing := Effective(setup.file, store, id);
      if existing.None? {
        return Refused(NotFound);
      }
      if bodyId != id {
        return Refused(IdMismatch);
      }
      var allowed := AssertEnvKeyPairing(id, entry.config, Some(existing.value.config));
      if !allowed {
        return Refused(ApiKeyEnvNotAllowed);
      }
      var upstreamChanged := setup.upstreamKey(existing.value.config.upstream) != setup.upstreamKey(entry.config.upstream);
      if upstreamChanged {
        var cleared := ClearConsoleKeyForNewUpstream(id, disk);
        if !cleared {
          return Refused(StoreUnwritable);
        }
      }
      response := Upsert(id, entry, disk);
    }

    method HandleDelete(id: Id, disk: Disk) returns (response: Response)
      modifies this`store, this`keys
      ensures Outcome(Now(), response) == Deleted(setup, old(Now()), id, disk)
    {
      if !disk.storeWritable {
        return Refused(StoreUnwritable);
      }
      if Effective(setup.file, store, id).None? {
        return Refused(NotFound);
      }
      if id !in store {
        return Refused(ProviderFromFile);
      }
      if !disk.storeLands {
        return Refused(StoreUnwritable);
      }
      store := store - {id};
      var _ := RemoveKey(id, disk);
      response := Done;
    }

    method HandleSetSecret(id: Id, key: string, disk: Disk) returns (response: Response)
      modifies this`keys
      ensures Outcome(Now(), response) == SecretSet(setup, old(Now()), id, key, disk)
    {
      if !disk.keysWritable {
        return Refused(StoreUnwritable);
      }
      if Effective(setup.file, store, id).None? {
        return Refused(NotFound);
      }
      if !disk.keysLand {
        return Refused(StoreUnwritable);
      }
      keys := keys[id := key];
      response := Done;
    }

    method HandleClearSecret(id: Id, disk: Disk) returns (response: Response)
      modifies this`keys
      ensures Outcome(Now(), response) == SecretCleared(setup, old(Now()), id, disk)
    {
      if !disk.keysWritable {
        return Refused(StoreUnwritable);
      }
      if Effective(setup.file, store, id).None? {
        return Refused(NotFound);
      }
      var cleared := RemoveKey(id, disk);
      response := if cleared then Done else Refused(StoreUnwritable);
    }
  }
}

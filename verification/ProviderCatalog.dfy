/** The merged view of which providers exist: what the operator wrote, overridden as a whole by what the
    console stored under the same id. */
module ProviderCatalog {
  import opened Wrappers

  type Id = string

  /** `details`: api kind, auth and models, which the merge passes on unread. */
  datatype Config = Config(upstream: string, apiKeyEnv: Option<string>, details: string)

  datatype Entry = Entry(config: Config, enabled: bool)

  datatype Source = File | Store

  datatype Resolved = Resolved(id: Id, config: Config, enabled: bool, source: Source, overridesFile: bool)

  function FromStore(id: Id, entry: Entry, overridesFile: bool): Resolved {
    Resolved(id, entry.config, entry.enabled, Store, overridesFile)
  }

  function FromFile(id: Id, config: Config): Resolved {
    Resolved(id, config, true, File, false)
  }

  /** What an id stands for: the store's entry if there is one, else the file's. */
  function Effective(file: map<Id, Config>, store: map<Id, Entry>, id: Id): Option<Resolved> {
    if id in store then Some(FromStore(id, store[id], id in file))
    else if id in file then Some(FromFile(id, file[id]))
    else None
  }

  ghost predicate DistinctIds<T>(entries: seq<(Id, T)>) {
    forall i, j :: 0 <= i < j < |entries| ==> entries[i].0 != entries[j].0
  }

  function AsMap<T>(entries: seq<(Id, T)>): map<Id, T> {
    if entries == [] then map[] else AsMap(entries[..|entries| - 1])[entries[|entries| - 1].0 := entries[|entries| - 1].1]
  }

  lemma {:induction false} AsMapHas<T>(entries: seq<(Id, T)>)
    requires DistinctIds(entries)
    ensures forall i :: 0 <= i < |entries| ==> entries[i].0 in AsMap(entries) && AsMap(entries)[entries[i].0] == entries[i].1
    ensures forall id :: id in AsMap(entries) ==> exists i :: 0 <= i < |entries| && entries[i].0 == id
  {
    if entries != [] {
      var n := |entries| - 1;
      AsMapHas(entries[..n]);
      forall id | id in AsMap(entries) ensures exists i :: 0 <= i < |entries| && entries[i].0 == id {
        if id == entries[n].0 {
          assert 0 <= n < |entries| && entries[n].0 == id;
        } else {
          var i :| 0 <= i < |entries[..n]| && entries[..n][i].0 == id;
          assert entries[i].0 == id;
        }
      }
    }
  }

  function Row(file: (Id, Config), store: map<Id, Entry>): Resolved {
    if file.0 in store then FromStore(file.0, store[file.0], true) else FromFile(file.0, file.1)
  }

  function FileRows(file: seq<(Id, Config)>, store: map<Id, Entry>): seq<Resolved> {
    seq(|file|, i requires 0 <= i < |file| => Row(file[i], store))
  }

  function StoreRows(entries: seq<(Id, Entry)>, seen: set<Id>): seq<Resolved> {
    if entries == [] then []
    else
      var (id, entry) := entries[|entries| - 1];
      StoreRows(entries[..|entries| - 1], seen) + (if id in seen then [] else [FromStore(id, entry, false)])
  }

  function Merged(file: seq<(Id, Config)>, entries: seq<(Id, Entry)>): seq<Resolved> {
    FileRows(file, AsMap(entries)) + StoreRows(entries, AsMap(file).Keys)
  }

  lemma {:induction false} StoreRowsFacts(entries: seq<(Id, Entry)>, seen: set<Id>)
    requires DistinctIds(entries)
    ensures var rows := StoreRows(entries, seen);
            && (forall i, j :: 0 <= i < j < |rows| ==> rows[i].id != rows[j].id)
            && (forall p: Resolved :: p in rows <==> p.id !in seen && (p.id, Entry(p.config, p.enabled)) in entries
                                                     && p.source == Store && !p.overridesFile)
  {
    if entries != [] {
      var n := |entries| - 1;
      StoreRowsFacts(entries[..n], seen);
      assert entries == entries[..n] + [entries[n]];
    }
  }

  /** The merged listing holds every id once, each as the store has it, or else as the file has it: the
      file's ids first, in the file's order, then those only the store has. */
  lemma MergedIsEffective(file: seq<(Id, Config)>, entries: seq<(Id, Entry)>)
    requires DistinctIds(file) && DistinctIds(entries)
    ensures var merged := Merged(file, entries);
            && (forall i, j :: 0 <= i < j < |merged| ==> merged[i].id != merged[j].id)
            && (forall p: Resolved :: p in merged <==> Effective(AsMap(file), AsMap(entries), p.id) == Some(p))
            && |merged| >= |file| && (forall i :: 0 <= i < |file| ==> merged[i].id == file[i].0)
            && (forall i :: |file| <= i < |merged| ==> merged[i].source == Store && merged[i].id !in AsMap(file))
  {
    AsMapHas(file);
    AsMapHas(entries);
    var rows, extra := FileRows(file, AsMap(entries)), StoreRows(entries, AsMap(file).Keys);
    StoreRowsFacts(entries, AsMap(file).Keys);
    assert forall p :: p in extra ==> p.id !in AsMap(file);
    assert forall i :: 0 <= i < |rows| ==> rows[i].id == file[i].0;
    forall p: Resolved ensures p in rows + extra <==> Effective(AsMap(file), AsMap(entries), p.id) == Some(p) {
      if p.id in AsMap(file) {
        var i :| 0 <= i < |file| && file[i].0 == p.id;
        assert rows[i] == Row(file[i], AsMap(entries));
        assert p in rows <==> p == rows[i];
      } else {
        InMap(entries, p);
      }
    }
  }

  lemma InMap(entries: seq<(Id, Entry)>, p: Resolved)
    requires DistinctIds(entries)
    ensures (p.id, Entry(p.config, p.enabled)) in entries
            <==> p.id in AsMap(entries) && AsMap(entries)[p.id] == Entry(p.config, p.enabled)
  {
    AsMapHas(entries);
    if p.id in AsMap(entries) {
      var i :| 0 <= i < |entries| && entries[i].0 == p.id;
      assert entries[i] == (entries[i].0, entries[i].1);
    }
  }

  class ProviderCatalog {
    const fileProviders: seq<(Id, Config)>

    constructor (fileProviders: seq<(Id, Config)>)
      ensures this.fileProviders == fileProviders
    {
      this.fileProviders := fileProviders;
    }

    /** File entries first, in their order, then what only the store has. */
    method Resolve(entries: seq<(Id, Entry)>) returns (result: seq<Resolved>)
      requires DistinctIds(fileProviders)
      ensures result == Merged(fileProviders, entries)
    {
      result := [];
      var seen: set<Id> := {};
      var storeEntries := AsMap(entries);
      var i := 0;
      while i < |fileProviders|
        invariant 0 <= i <= |fileProviders|
        invariant result == FileRows(fileProviders[..i], storeEntries)
        invariant seen == AsMap(fileProviders[..i]).Keys
      {
        var (id, config) := fileProviders[i];
        seen := seen + {id};
        result := result + [if id in storeEntries then FromStore(id, storeEntries[id], true) else FromFile(id, config)];
        assert fileProviders[..i + 1][..i] == fileProviders[..i];
        i := i + 1;
      }
      assert fileProviders[..i] == fileProviders;
      var j := 0;
      while j < |entries|
        invariant 0 <= j <= |entries|
        invariant result == FileRows(fileProviders, storeEntries) + StoreRows(entries[..j], seen)
      {
        var (id, entry) := entries[j];
        assert entries[..j + 1][..j] == entries[..j];
        if id !in seen {
          result := result + [FromStore(id, entry, false)];
        }
        j := j + 1;
      }
      assert entries[..j] == entries;
    }

    method Get(entries: seq<(Id, Entry)>, id: Id) returns (found: Option<Resolved>)
      requires DistinctIds(fileProviders) && DistinctIds(entries)
      ensures found == Effective(AsMap(fileProviders), AsMap(entries), id)
    {
      var all := Resolve(entries);
      MergedIsEffective(fileProviders, entries);
      var i := 0;
      while i < |all|
        invariant 0 <= i <= |all|
        invariant forall k :: 0 <= k < i ==> all[k].id != id
      {
        if all[i].id == id {
          assert all[i] in all;
          return Some(all[i]);
        }
        i := i + 1;
      }
      NotThere(fileProviders, entries, id, all);
      return None;
    }
  }

  lemma NotThere(file: seq<(Id, Config)>, entries: seq<(Id, Entry)>, id: Id, all: seq<Resolved>)
    requires forall p: Resolved :: p in all <==> Effective(AsMap(file), AsMap(entries), p.id) == Some(p)
    ensures Effective(AsMap(file), AsMap(entries), id) == None <==> forall p :: p in all ==> p.id != id
  {
    var effective := Effective(AsMap(file), AsMap(entries), id);
    if effective.Some? {
      assert effective.value.id == id && effective.value in all;
    }
  }
}

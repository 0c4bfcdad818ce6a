/** A request that nothing else interrupts does, cut at its awaits, exactly what it does as a whole: so
    whatever is proved of whole requests holds of the cut ones wherever they do not overlap. */
module AdminRefinement {
  import opened Wrappers
  import opened ProviderCatalog
  import opened AdminApi
  import AdminKeyProperties
  import opened AdminInterleavings

  type Request = AdminKeyProperties.Request

  /** The key store takes the write: it is writable, and the write lands. */
  predicate KeysTake(disk: Disk) {
    disk.keysWritable && disk.keysLand
  }

  /** The steps of one request as flight `f`, one after the other; a store that is not writable is turned
      down before anything else. */
  function Steps(setup: Setup, s: State, f: FlightId, r: Request): seq<Event> {
    match r
    case Post(id, entry, disk) =>
      if !disk.storeWritable then []
      else [PostArrives(f, id, entry)] + Rewrites(s, f, id, true, disk)
    case PutProvider(id, bodyId, entry, disk) =>
      if !disk.storeWritable then []
      else
        var current := Current(setup, s, id);
        [PutArrives(f, id), PutBody(f, bodyId, entry)]
        + Rewrites(s, f, id, current.Some? && Norm(setup, current.value.config) != Norm(setup, entry.config), disk)
    case Delete(id, disk) =>
      if !disk.storeWritable then [] else [DeleteArrives(f, id), Proceeds(f, disk.storeLands), Proceeds(f, KeysTake(disk))]
    case SetSecret(id, key, disk) =>
      if !disk.keysWritable then [] else [SecretArrives(f, id, key), Proceeds(f, disk.keysLand)]
    case ClearSecret(id, disk) =>
      if !disk.keysWritable then [] else [UnsecretArrives(f, id), Proceeds(f, disk.keysLand)]
    case Use(id) => [CallArrives(f, id), Proceeds(f, true)]
    case Form(id, upstream, typed, envName) => [Asks(id, upstream, typed, envName)]
  }

  /** A row is written, the key that goes first out of the way if there is one. */
  function Rewrites(s: State, f: FlightId, id: Id, clear: bool, disk: Disk): seq<Event> {
    (if clear && id in s.keys then [Proceeds(f, KeysTake(disk))] else []) + [Proceeds(f, disk.storeLands)]
  }

  lemma {:induction false} RunFirst(setup: Setup, w: World, e: Event, rest: seq<Event>)
    ensures Run(setup, w, [e] + rest) == Run(setup, Step(setup, w, e), rest)
  {
    assert ([e] + rest)[0] == e && ([e] + rest)[1..] == rest;
  }

  lemma RunOne(setup: Setup, w: World, e: Event)
    ensures Run(setup, w, [e]) == Step(setup, w, e)
  {
    assert [e] == [e] + [];
    RunFirst(setup, w, e, []);
  }

  lemma RunTwo(setup: Setup, w: World, a: Event, b: Event)
    ensures Run(setup, w, [a, b]) == Step(setup, Step(setup, w, a), b)
  {
    assert [a, b] == [a] + [b];
    RunFirst(setup, w, a, [b]);
    RunOne(setup, Step(setup, w, a), b);
  }

  /** What `r` comes to as a whole, with the flights as they were. */
  function Whole(setup: Setup, w: World, r: Request): World {
    World(AdminKeyProperties.Step(setup, w.t, r), w.flights)
  }

  lemma RewriteIsWhole(setup: Setup, w: World, f: FlightId, id: Id, entry: Entry, clear: bool, disk: Disk, flights: map<FlightId, Flight>)
    requires f !in flights && w.flights == flights[f := Allowed(w.t.s, id, entry, clear)]
    ensures Run(setup, w, Rewrites(w.t.s, f, id, clear, disk))
            == World(w.t.(s := Replaced(setup, w.t.s, id, entry, clear, disk).state), flights)
  {
    assert flights[f := Allowed(w.t.s, id, entry, clear)] - {f} == flights;
    if clear && id in w.t.s.keys {
      var first, last := Proceeds(f, KeysTake(disk)), Proceeds(f, disk.storeLands);
      assert Rewrites(w.t.s, f, id, clear, disk) == [first, last];
      RunTwo(setup, w, first, last);
      if KeysTake(disk) {
        var v := Step(setup, w, first);
        assert v.flights == flights[f := Writing(id, entry)];
        assert v.flights - {f} == flights;
      }
    } else {
      assert Rewrites(w.t.s, f, id, clear, disk) == [Proceeds(f, disk.storeLands)];
      RunOne(setup, w, Proceeds(f, disk.storeLands));
      assert clear ==> w.t.s.keys - {id} == w.t.s.keys;
    }
  }

  /** Nothing of flight `f` is under way: its later steps do nothing. */
  lemma RewriteOfNothing(setup: Setup, w: World, f: FlightId, s: State, id: Id, clear: bool, disk: Disk)
    requires f !in w.flights
    ensures Run(setup, w, Rewrites(s, f, id, clear, disk)) == w
  {
    var first, last := Proceeds(f, KeysTake(disk)), Proceeds(f, disk.storeLands);
    if clear && id in s.keys {
      assert Rewrites(s, f, id, clear, disk) == [first, last];
      RunTwo(setup, w, first, last);
    } else {
      assert Rewrites(s, f, id, clear, disk) == [last];
      RunOne(setup, w, last);
    }
  }

  lemma PostIsWhole(setup: Setup, w: World, f: FlightId, id: Id, entry: Entry, disk: Disk)
    requires f !in w.flights && disk.storeWritable
    ensures var r := AdminKeyProperties.Post(id, entry, disk);
            Run(setup, w, Steps(setup, w.t.s, f, r)) == Whole(setup, w, r)
  {
    var e := PostArrives(f, id, entry);
    var v := Step(setup, w, e);
    RunFirst(setup, w, e, Rewrites(w.t.s, f, id, true, disk));
    if f in v.flights {
      RewriteIsWhole(setup, v, f, id, entry, true, disk, w.flights);
    } else {
      RewriteOfNothing(setup, v, f, w.t.s, id, true, disk);
    }
  }

  lemma PutIsWhole(setup: Setup, w: World, f: FlightId, id: Id, bodyId: Id, entry: Entry, disk: Disk)
    requires f !in w.flights && disk.storeWritable
    ensures var r := AdminKeyProperties.PutProvider(id, bodyId, entry, disk);
            Run(setup, w, Steps(setup, w.t.s, f, r)) == Whole(setup, w, r)
  {
    var current := Current(setup, w.t.s, id);
    var clear := current.Some? && Norm(setup, current.value.config) != Norm(setup, entry.config);
    var a, b, rest := PutArrives(f, id), PutBody(f, bodyId, entry), Rewrites(w.t.s, f, id, clear, disk);
    assert [a, b] + rest == [a] + ([b] + rest);
    RunFirst(setup, w, a, [b] + rest);
    var u := Step(setup, w, a);
    RunFirst(setup, u, b, rest);
    var v := Step(setup, u, b);
    if f in u.flights {
      assert u.flights == w.flights[f := Looking(id, current.value.config)];
      assert u.flights - {f} == w.flights;
    }
    if f in v.flights {
      assert v.flights == w.flights[f := Allowed(w.t.s, id, entry, clear)];
      RewriteIsWhole(setup, v, f, id, entry, clear, disk, w.flights);
    } else {
      RewriteOfNothing(setup, v, f, w.t.s, id, clear, disk);
    }
  }

  lemma DeleteIsWhole(setup: Setup, w: World, f: FlightId, id: Id, disk: Disk)
    requires f !in w.flights && disk.storeWritable
    ensures var r := AdminKeyProperties.Delete(id, disk);
            Run(setup, w, Steps(setup, w.t.s, f, r)) == Whole(setup, w, r)
  {
    var a, b, c := DeleteArrives(f, id), Proceeds(f, disk.storeLands), Proceeds(f, KeysTake(disk));
    assert [a, b, c] == [a] + [b, c];
    RunFirst(setup, w, a, [b, c]);
    var u := Step(setup, w, a);
    RunTwo(setup, u, b, c);
    if f in u.flights {
      assert u.flights == w.flights[f := Removing(id)] && u.flights - {f} == w.flights;
      var v := Step(setup, u, b);
      if disk.storeLands {
        assert v.flights == w.flights[f := Forgetting(id)] && v.flights - {f} == w.flights;
        assert id !in w.t.s.keys ==> w.t.s.keys - {id} == w.t.s.keys;
      }
    }
  }

  lemma SecretIsWhole(setup: Setup, w: World, f: FlightId, r: Request)
    requires f !in w.flights && (r.SetSecret? || r.ClearSecret?) && r.disk.keysWritable
    ensures Run(setup, w, Steps(setup, w.t.s, f, r)) == Whole(setup, w, r)
  {
    var a := if r.SetSecret? then SecretArrives(f, r.id, r.key) else UnsecretArrives(f, r.id);
    RunTwo(setup, w, a, Proceeds(f, r.disk.keysLand));
    var u := Step(setup, w, a);
    if f in u.flights { assert u.flights - {f} == w.flights; }
    assert r.id !in w.t.s.keys ==> w.t.s.keys - {r.id} == w.t.s.keys;
  }

  lemma CallIsWhole(setup: Setup, w: World, f: FlightId, id: Id)
    requires f !in w.flights
    ensures var r := AdminKeyProperties.Use(id);
            Run(setup, w, Steps(setup, w.t.s, f, r)) == Whole(setup, w, r)
  {
    RunTwo(setup, w, CallArrives(f, id), Proceeds(f, true));
    var u := Step(setup, w, CallArrives(f, id));
    if f in u.flights { assert u.flights - {f} == w.flights; }
  }

  /** In any world, whatever else is in flight: a request whose steps follow one another without a step of
      another in between leaves the state, the keys entered and the keys sent that it leaves as a whole,
      and every other flight where it was. */
  lemma UninterruptedIsWhole(setup: Setup, w: World, f: FlightId, r: Request)
    requires f !in w.flights
    ensures Run(setup, w, Steps(setup, w.t.s, f, r)) == Whole(setup, w, r)
  {
    match r
    case Post(id, entry, disk) => if disk.storeWritable { PostIsWhole(setup, w, f, id, entry, disk); }
    case PutProvider(id, bodyId, entry, disk) => if disk.storeWritable { PutIsWhole(setup, w, f, id, bodyId, entry, disk); }
    case Delete(id, disk) => if disk.storeWritable { DeleteIsWhole(setup, w, f, id, disk); }
    case SetSecret(_, _, disk) => if disk.keysWritable { SecretIsWhole(setup, w, f, r); }
    case ClearSecret(_, disk) => if disk.keysWritable { SecretIsWhole(setup, w, f, r); }
    case Use(id) => CallIsWhole(setup, w, f, id);
    case Form(id, upstream, typed, envName) => RunOne(setup, w, Asks(id, upstream, typed, envName));
  }
}

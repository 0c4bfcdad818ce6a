/** The gate's durable store of `apply` calls: what each actionRequestId holds in memory, what the
    file holds, and the serialized chain of whole-file writes between the two.

    Pure state functions come first; `JsonFileIdempotencyStore` is the object that updates its fields
    in place and is proved to do exactly what those functions say. */
module IdempotencyStore {
  import opened Wrappers

  type Key = string
  /** A call in progress. Every call has at most one write outstanding, so a write is named by the
      call that asked for it. */
  type CallId = nat

  datatype Descriptor = Descriptor(operation: string, paramsHash: string, onBehalfOf: Option<string>)

  datatype Payload = Payload(data: string, observedFacts: string)

  datatype StoredFailure = StoredFailure(message: string, outcomeUnknown: bool)

  datatype Entry =
    | Pending(descriptor: Descriptor)
    | Orphaned(descriptor: Descriptor)
    | Done(descriptor: Descriptor, payload: Payload)
    | Failed(descriptor: Descriptor, failure: StoredFailure)
    | NotReceived(descriptor: Descriptor)

  /** One member of the file's `entries`: a record this store writes, or anything else it may hold
      (an older format), which loading skips. */
  datatype DiskRecord = Written(entry: Entry) | Unrecognised

  datatype ReserveResult =
    | Reserved
    | Replay(payload: Payload)
    | KnownFailure(failure: StoredFailure)
    | Unknown
    | Conflict

  datatype LookupResult =
    | Absent
    | StillPending
    | FoundReplay(payload: Payload)
    | FoundFailure(failure: StoredFailure)
    | FoundUnknown
    | FoundConflict

  function NotReceivedFailure(key: Key): StoredFailure {
    StoredFailure("apply for actionRequestId \"" + key + "\" arrived after it was closed", false)
  }

  /** What `reserve` answers for a key that already holds `e`. */
  function ReserveAnswer(key: Key, e: Entry, d: Descriptor): ReserveResult {
    if e.Pending? then Conflict
    else if e.descriptor != d then Conflict
    else match e
         case Orphaned(_) => Unknown
         case NotReceived(_) => KnownFailure(NotReceivedFailure(key))
         case Failed(_, f) => KnownFailure(f)
         case Done(_, p) => Replay(p)
         case Pending(_) => Conflict
  }

  /** What `lookup` answers for a key that already holds `e`. */
  function LookupAnswer(e: Entry, d: Descriptor): LookupResult {
    if e.descriptor != d then FoundConflict
    else match e
         case Pending(_) => StillPending
         case NotReceived(_) => Absent
         case Orphaned(_) => FoundUnknown
         case Failed(_, f) => FoundFailure(f)
         case Done(_, p) => FoundReplay(p)
  }

  /** What one persisted record becomes when a new process loads it. */
  function LoadedEntry(r: DiskRecord): Option<Entry> {
    match r
    case Unrecognised => None
    case Written(Pending(d)) => Some(Orphaned(d))
    case Written(e) => Some(e)
  }

  function LoadedMap(file: map<Key, DiskRecord>): map<Key, Entry> {
    map k | k in file && LoadedEntry(file[k]).Some? :: LoadedEntry(file[k]).value
  }

  function FileOf(entries: map<Key, Entry>): map<Key, DiskRecord> {
    map k | k in entries :: Written(entries[k])
  }

  /** The write at the head of the chain: its snapshot was taken when it started; `landed` says the
      rename happened, which the process only learns when the write settles. */
  datatype RunningWrite = RunningWrite(id: CallId, snapshot: map<Key, Entry>, landed: bool)

  datatype Store = Store(
    memory: Option<map<Key, Entry>>,
    file: map<Key, DiskRecord>,
    queue: seq<CallId>,
    running: Option<RunningWrite>)

  function Loaded(s: Store): Store {
    s.(memory := Some(LoadedMap(s.file)))
  }

  function Put(s: Store, key: Key, e: Entry, id: CallId): Store
    requires s.memory.Some?
  {
    s.(memory := Some(s.memory.value[key := e]), queue := s.queue + [id])
  }

  /** `reserve` up to its write. */
  function Reserve(s: Store, key: Key, d: Descriptor, id: CallId): (Store, ReserveResult)
    requires s.memory.Some?
  {
    if key in s.memory.value then (s, ReserveAnswer(key, s.memory.value[key], d))
    else (Put(s, key, Pending(d), id), Reserved)
  }

  /** `lookup` up to its write: the answer it will give if that write lands, and whether it closed
      the key. */
  function Lookup(s: Store, key: Key, d: Descriptor, id: CallId): (Store, LookupResult, bool)
    requires s.memory.Some?
  {
    if key in s.memory.value then (s, LookupAnswer(s.memory.value[key], d), false)
    else (Put(s, key, NotReceived(d), id), Absent, true)
  }

  function ReservedDescriptor(entries: map<Key, Entry>, key: Key): Descriptor {
    if key in entries then entries[key].descriptor else Descriptor("", "", None)
  }

  function Complete(s: Store, key: Key, p: Payload, id: CallId): Store
    requires s.memory.Some?
  {
    Put(s, key, Done(ReservedDescriptor(s.memory.value, key), p), id)
  }

  function Fail(s: Store, key: Key, f: StoredFailure, id: CallId): Store
    requires s.memory.Some?
  {
    Put(s, key, Failed(ReservedDescriptor(s.memory.value, key), f), id)
  }

  /** The `catch` of a reservation or a closing whose write failed. */
  function Forget(s: Store, key: Key): Store
    requires s.memory.Some?
  {
    s.(memory := Some(s.memory.value - {key}))
  }

  /** `release`: only a pending key is freed, and only then is there a write to wait for. */
  function Release(s: Store, key: Key, id: CallId): (Store, bool)
    requires s.memory.Some?
  {
    if key in s.memory.value && s.memory.value[key].Pending? then
      (Forget(s, key).(queue := s.queue + [id]), true)
    else (s, false)
  }

  predicate CanStart(s: Store) {
    s.memory.Some? && s.running.None? && s.queue != []
  }

  function StartWrite(s: Store): Store
    requires CanStart(s)
  {
    s.(queue := s.queue[1..], running := Some(RunningWrite(s.queue[0], s.memory.value, false)))
  }

  function LandWrite(s: Store): Store
    requires s.running.Some? && !s.running.value.landed
  {
    s.(file := FileOf(s.running.value.snapshot), running := Some(s.running.value.(landed := true)))
  }

  /** The end of the running write, as its caller sees it. */
  function EndWrite(s: Store): Store
    requires s.running.Some?
  {
    s.(running := None)
  }

  function Crashed(s: Store): Store {
    Store(None, s.file, [], None)
  }

  /** The store object: the map is a field the methods reassign, the write chain is the pair of
      fields `queue` and `running`, and `file` stands for the file on disk. */
  class JsonFileIdempotencyStore {
    var memory: Option<map<Key, Entry>>
    var file: map<Key, DiskRecord>
    var queue: seq<CallId>
    var running: Option<RunningWrite>

    ghost function State(): Store
      reads this
    {
      Store(memory, file, queue, running)
    }

    constructor (onDisk: map<Key, DiskRecord>)
      ensures State() == Store(None, onDisk, [], None)
    {
      memory, file, queue, running := None, onDisk, [], None;
    }

    /** Reads the file record by record; a reservation still pending there belongs to a process
        that is gone. */
    method Load()
      modifies this`memory
      ensures State() == Loaded(old(State()))
    {
      var loaded: map<Key, Entry> := map[];
      var todo := file.Keys;
      while todo != {}
        invariant todo <= file.Keys
        invariant loaded.Keys == set k | k in file && k !in todo && LoadedEntry(file[k]).Some?
        invariant forall k :: k in loaded ==> k in file && LoadedEntry(file[k]) == Some(loaded[k])
        decreases todo
      {
        var key :| key in todo;
        var entry := LoadedEntry(file[key]);
        if entry.Some? {
          loaded := loaded[key := entry.value];
        }
        todo := todo - {key};
      }
      assert loaded == LoadedMap(file);
      memory := Some(loaded);
    }

    method BeginReserve(key: Key, d: Descriptor, id: CallId) returns (result: ReserveResult)
      requires memory.Some?
      modifies this`memory, this`queue
      ensures (State(), result) == Reserve(old(State()), key, d, id)
    {
      if key in memory.value {
        var existing := memory.value[key];
        if existing.Pending? { return Conflict; }
        if existing.descriptor != d { return Conflict; }
        match existing
        case Orphaned(_) => return Unknown;
        case NotReceived(_) => return KnownFailure(NotReceivedFailure(key));
        case Failed(_, failure) => return KnownFailure(failure);
        case Done(_, payload) => return Replay(payload);
      }
      memory := Some(memory.value[key := Pending(d)]);
      Flush(id);
      return Reserved;
    }

    method BeginLookup(key: Key, d: Descriptor, id: CallId) returns (result: LookupResult, closed: bool)
      requires memory.Some?
      modifies this`memory, this`queue
      ensures (State(), result, closed) == Lookup(old(State()), key, d, id)
    {
      if key in memory.value {
        var existing := memory.value[key];
        if existing.descriptor != d { return FoundConflict, false; }
        match existing
        case Pending(_) => return StillPending, false;
        case NotReceived(_) => return Absent, false;
        case Orphaned(_) => return FoundUnknown, false;
        case Failed(_, failure) => return FoundFailure(failure), false;
        case Done(_, payload) => return FoundReplay(payload), false;
      }
      memory := Some(memory.value[key := NotReceived(d)]);
      Flush(id);
      return Absent, true;
    }

    method BeginComplete(key: Key, p: Payload, id: CallId)
      requires memory.Some?
      modifies this`memory, this`queue
      ensures State() == Complete(old(State()), key, p, id)
    {
      memory := Some(memory.value[key := Done(ReservedDescriptor(memory.value, key), p)]);
      Flush(id);
    }

    method BeginFail(key: Key, f: StoredFailure, id: CallId)
      requires memory.Some?
      modifies this`memory, this`queue
      ensures State() == Fail(old(State()), key, f, id)
    {
      memory := Some(memory.value[key := Failed(ReservedDescriptor(memory.value, key), f)]);
      Flush(id);
    }

    method BeginRelease(key: Key, id: CallId) returns (freed: bool)
      requires memory.Some?
      modifies this`memory, this`queue
      ensures (State(), freed) == Release(old(State()), key, id)
    {
      if key !in memory.value || !memory.value[key].Pending? { return false; }
      memory := Some(memory.value - {key});
      Flush(id);
      return true;
    }

    /** The `catch` of `reserve` and `lookup`. */
    method RollBack(key: Key)
      requires memory.Some?
      modifies this`memory
      ensures State() == Forget(old(State()), key)
    {
      memory := Some(memory.value - {key});
    }

    method Flush(id: CallId)
      modifies this`queue
      ensures State() == old(State()).(queue := old(queue) + [id])
    {
      queue := queue + [id];
    }

    /** `writeSnapshot` starting: copies the map as it is now, entry by entry. */
    method TakeSnapshot()
      requires CanStart(State())
      modifies this`queue, this`running
      ensures State() == StartWrite(old(State()))
    {
      var entries: map<Key, Entry> := map[];
      var todo := memory.value.Keys;
      while todo != {}
        invariant todo <= memory.value.Keys
        invariant entries.Keys == memory.value.Keys - todo
        invariant forall k :: k in entries ==> entries[k] == memory.value[k]
        decreases todo
      {
        var key :| key in todo;
        entries := entries[key := memory.value[key]];
        todo := todo - {key};
      }
      assert entries == memory.value;
      running := Some(RunningWrite(queue[0], entries, false));
      queue := queue[1..];
    }

    method Rename()
      requires running.Some? && !running.value.landed
      modifies this`file, this`running
      ensures State() == LandWrite(old(State()))
    {
      file := FileOf(running.value.snapshot);
      running := Some(running.value.(landed := true));
    }
  }
}

/** What the event bridge keeps of one Turn: which unacknowledged frames go when a Turn has too many.

    `Bounded` says it outright: of the Turn's frames over its bound, first its oldest text deltas go,
    then its oldest messages and tool events; everything else stays where it is. */
module ReplayBuffer {
  datatype FrameKind =
    | TextDelta | ToolCallStarted | ToolCallEnded | Message | TurnEnded
    | TurnAccepted | TurnRejected | TurnUnknown

  datatype Frame = Frame(number: nat, turnId: string, kind: FrameKind, payload: string)

  function EvictionRank(kind: FrameKind): nat {
    match kind
    case TextDelta => 0
    case ToolCallStarted => 1
    case ToolCallEnded => 1
    case Message => 1
    case TurnEnded => 2
    case TurnAccepted => 2
    case TurnRejected => 2
    case TurnUnknown => 2
  }

  /** The kinds that may go for the per-Turn bound; the others say how a Turn began or ended. */
  predicate MayBeEvicted(kind: FrameKind) {
    kind.TextDelta? || kind.Message? || kind.ToolCallStarted? || kind.ToolCallEnded?
  }

  /** The classes of kinds, in the order they go: text deltas, then messages and tool events; the last
      never goes. */
  predicate InClass(kind: FrameKind, rank: nat) {
    match rank
    case 0 => kind.TextDelta?
    case 1 => MayBeEvicted(kind) && !kind.TextDelta?
    case 2 => !MayBeEvicted(kind)
    case _ => false
  }

  lemma RankIsClass(kind: FrameKind, rank: nat)
    ensures EvictionRank(kind) == rank <==> InClass(kind, rank)
  {
  }

  predicate Ranked(f: Frame, turnId: string, rank: nat) {
    f.turnId == turnId && InClass(f.kind, rank)
  }

  function CountOf(buffer: seq<Frame>, turnId: string): nat {
    if buffer == [] then 0 else (if buffer[0].turnId == turnId then 1 else 0) + CountOf(buffer[1..], turnId)
  }

  function CountRank(buffer: seq<Frame>, turnId: string, rank: nat): nat {
    if buffer == [] then 0 else (if Ranked(buffer[0], turnId, rank) then 1 else 0) + CountRank(buffer[1..], turnId, rank)
  }

  /** Without the `n` oldest frames of that Turn and rank. */
  function WithoutOldest(buffer: seq<Frame>, turnId: string, rank: nat, n: nat): seq<Frame> {
    if n == 0 || buffer == [] then buffer
    else if Ranked(buffer[0], turnId, rank) then WithoutOldest(buffer[1..], turnId, rank, n - 1)
    else [buffer[0]] + WithoutOldest(buffer[1..], turnId, rank, n)
  }

  function Min(a: nat, b: nat): nat {
    if a < b then a else b
  }

  function Excess(buffer: seq<Frame>, turnId: string, max: nat): nat {
    if CountOf(buffer, turnId) > max then CountOf(buffer, turnId) - max else 0
  }

  function DeltasToDrop(buffer: seq<Frame>, turnId: string, max: nat): nat {
    Min(Excess(buffer, turnId, max), CountRank(buffer, turnId, 0))
  }

  function MessagesToDrop(buffer: seq<Frame>, turnId: string, max: nat): nat {
    Min(Excess(buffer, turnId, max) - DeltasToDrop(buffer, turnId, max), CountRank(buffer, turnId, 1))
  }

  function Bounded(buffer: seq<Frame>, turnId: string, max: nat): seq<Frame> {
    WithoutOldest(
      WithoutOldest(buffer, turnId, 0, DeltasToDrop(buffer, turnId, max)),
      turnId, 1, MessagesToDrop(buffer, turnId, max))
  }

  // ---------------------------------------------------------------------------------------------

  function Without(buffer: seq<Frame>, v: nat): seq<Frame>
    requires v < |buffer|
  {
    buffer[..v] + buffer[v + 1..]
  }

  /** `v` is the Turn's oldest frame of that rank. */
  predicate IsOldest(buffer: seq<Frame>, turnId: string, rank: nat, v: nat) {
    v < |buffer| && Ranked(buffer[v], turnId, rank) && forall i :: 0 <= i < v ==> !Ranked(buffer[i], turnId, rank)
  }

  predicate NoneRanked(buffer: seq<Frame>, turnId: string, rank: nat) {
    forall i :: 0 <= i < |buffer| ==> !Ranked(buffer[i], turnId, rank)
  }

  lemma {:induction false} WithoutTail(buffer: seq<Frame>, v: nat)
    requires 0 < v < |buffer|
    ensures Without(buffer, v)[1..] == Without(buffer[1..], v - 1) && Without(buffer, v)[0] == buffer[0]
  {
    assert buffer[..v][1..] == buffer[1..][..v - 1];
    assert buffer[v + 1..] == buffer[1..][v..];
  }

  lemma {:induction false} CountsWithout(buffer: seq<Frame>, turnId: string, v: nat)
    requires v < |buffer| && buffer[v].turnId == turnId
    ensures CountOf(Without(buffer, v), turnId) == CountOf(buffer, turnId) - 1
    ensures forall rank :: CountRank(Without(buffer, v), turnId, rank)
                           == CountRank(buffer, turnId, rank) - (if InClass(buffer[v].kind, rank) then 1 else 0)
  {
    if v == 0 {
      assert Without(buffer, 0) == buffer[1..];
    } else {
      WithoutTail(buffer, v);
      CountsWithout(buffer[1..], turnId, v - 1);
    }
  }

  lemma {:induction false} OldestGoesFirst(buffer: seq<Frame>, turnId: string, rank: nat, v: nat, n: nat)
    requires IsOldest(buffer, turnId, rank, v) && n > 0
    ensures WithoutOldest(buffer, turnId, rank, n) == WithoutOldest(Without(buffer, v), turnId, rank, n - 1)
  {
    if v == 0 {
      assert Without(buffer, 0) == buffer[1..];
    } else {
      WithoutTail(buffer, v);
      assert forall i :: 0 <= i < |buffer[1..]| ==> buffer[1..][i] == buffer[i + 1];
      assert !Ranked(buffer[0], turnId, rank);
      OldestGoesFirst(buffer[1..], turnId, rank, v - 1, n);
    }
  }

  lemma {:induction false} CountsOfNone(buffer: seq<Frame>, turnId: string, rank: nat)
    requires NoneRanked(buffer, turnId, rank)
    ensures CountRank(buffer, turnId, rank) == 0
  {
    if buffer != [] {
      assert forall i :: 0 <= i < |buffer[1..]| ==> buffer[1..][i] == buffer[i + 1];
      CountsOfNone(buffer[1..], turnId, rank);
    }
  }

  lemma {:induction false} SomeCounts(buffer: seq<Frame>, turnId: string, rank: nat, v: nat)
    requires v < |buffer| && Ranked(buffer[v], turnId, rank)
    ensures CountRank(buffer, turnId, rank) > 0
  {
    if v > 0 {
      SomeCounts(buffer[1..], turnId, rank, v - 1);
    }
  }

  /** One round of the eviction loop does part of what `Bounded` says, and nothing else. */
  lemma EvictingOne(buffer: seq<Frame>, turnId: string, max: nat, v: nat)
    requires CountOf(buffer, turnId) > max
    requires IsOldest(buffer, turnId, 0, v) || (NoneRanked(buffer, turnId, 0) && IsOldest(buffer, turnId, 1, v))
    ensures Bounded(Without(buffer, v), turnId, max) == Bounded(buffer, turnId, max)
  {
    CountsWithout(buffer, turnId, v);
    if IsOldest(buffer, turnId, 0, v) {
      SomeCounts(buffer, turnId, 0, v);
      OldestGoesFirst(buffer, turnId, 0, v, DeltasToDrop(buffer, turnId, max));
    } else {
      CountsOfNone(buffer, turnId, 0);
      SomeCounts(buffer, turnId, 1, v);
      OldestGoesFirst(buffer, turnId, 1, v, MessagesToDrop(buffer, turnId, max));
    }
  }

  lemma NothingToEvict(buffer: seq<Frame>, turnId: string, max: nat)
    requires CountOf(buffer, turnId) <= max || (NoneRanked(buffer, turnId, 0) && NoneRanked(buffer, turnId, 1))
    ensures Bounded(buffer, turnId, max) == buffer
  {
    if CountOf(buffer, turnId) > max {
      CountsOfNone(buffer, turnId, 0);
      CountsOfNone(buffer, turnId, 1);
    }
  }

  // ---------------------------------------------------------------------------------------------
  // What `Bounded` keeps
  // ---------------------------------------------------------------------------------------------

  lemma {:induction false} CountsSplit(buffer: seq<Frame>, turnId: string)
    ensures CountOf(buffer, turnId) == CountRank(buffer, turnId, 0) + CountRank(buffer, turnId, 1) + CountRank(buffer, turnId, 2)
  {
    if buffer != [] {
      CountsSplit(buffer[1..], turnId);
    }
  }

  lemma {:induction false} CountsAfterDropping(buffer: seq<Frame>, turnId: string, rank: nat, n: nat, other: string, r: nat)
    requires n <= CountRank(buffer, turnId, rank)
    ensures CountRank(WithoutOldest(buffer, turnId, rank, n), other, r)
            == CountRank(buffer, other, r) - (if other == turnId && r == rank then n else 0)
  {
    if n > 0 && buffer != [] {
      if Ranked(buffer[0], turnId, rank) {
        CountsAfterDropping(buffer[1..], turnId, rank, n - 1, other, r);
      } else {
        CountsAfterDropping(buffer[1..], turnId, rank, n, other, r);
        assert WithoutOldest(buffer, turnId, rank, n)[1..] == WithoutOldest(buffer[1..], turnId, rank, n);
      }
    }
  }

  lemma RankCounts(buffer: seq<Frame>, turnId: string, max: nat, other: string)
    ensures var kept := Bounded(buffer, turnId, max);
            && (other != turnId ==> CountOf(kept, other) == CountOf(buffer, other))
            && CountRank(kept, turnId, 2) == CountRank(buffer, turnId, 2)
            && (CountRank(kept, turnId, 1) < CountRank(buffer, turnId, 1) ==> CountRank(kept, turnId, 0) == 0)
            && (CountOf(kept, turnId) <= max || CountOf(kept, turnId) == CountRank(kept, turnId, 2))
            && (CountOf(kept, turnId) == max || kept == buffer || CountOf(kept, turnId) == CountRank(kept, turnId, 2))
  {
    var d, m := DeltasToDrop(buffer, turnId, max), MessagesToDrop(buffer, turnId, max);
    var mid := WithoutOldest(buffer, turnId, 0, d);
    forall t, r ensures CountRank(mid, t, r) == CountRank(buffer, t, r) - (if t == turnId && r == 0 then d else 0) {
      CountsAfterDropping(buffer, turnId, 0, d, t, r);
    }
    var kept := Bounded(buffer, turnId, max);
    forall t, r ensures CountRank(kept, t, r) == CountRank(mid, t, r) - (if t == turnId && r == 1 then m else 0) {
      CountsAfterDropping(mid, turnId, 1, m, t, r);
    }
    CountsSplit(buffer, turnId);
    CountsSplit(kept, turnId);
    CountsSplit(buffer, other);
    CountsSplit(kept, other);
  }

  predicate Ascending(buffer: seq<Frame>) {
    forall i, j :: 0 <= i < j < |buffer| ==> buffer[i].number < buffer[j].number
  }

  /** Dropping only ever removes frames of that Turn and rank, and never reorders. */
  lemma {:induction false} DroppingKeepsOrder(buffer: seq<Frame>, turnId: string, rank: nat, n: nat)
    requires Ascending(buffer)
    ensures var kept := WithoutOldest(buffer, turnId, rank, n);
            && Ascending(kept)
            && (forall f :: f in kept ==> f in buffer)
            && (forall f :: f in buffer && f !in kept ==> Ranked(f, turnId, rank))
  {
    if n > 0 && buffer != [] {
      var rest := buffer[1..];
      assert buffer == [buffer[0]] + rest;
      if Ranked(buffer[0], turnId, rank) {
        DroppingKeepsOrder(rest, turnId, rank, n - 1);
      } else {
        DroppingKeepsOrder(rest, turnId, rank, n);
        var tail := WithoutOldest(rest, turnId, rank, n);
        assert forall f :: f in tail ==> f in rest && f.number > buffer[0].number;
      }
    }
  }

  lemma BoundedKeepsOrder(buffer: seq<Frame>, turnId: string, max: nat)
    requires Ascending(buffer)
    ensures var kept := Bounded(buffer, turnId, max);
            && Ascending(kept)
            && (forall f :: f in kept ==> f in buffer)
            && (forall f :: f in buffer && f !in kept ==> f.turnId == turnId && MayBeEvicted(f.kind))
  {
    DroppingKeepsOrder(buffer, turnId, 0, DeltasToDrop(buffer, turnId, max));
    DroppingKeepsOrder(WithoutOldest(buffer, turnId, 0, DeltasToDrop(buffer, turnId, max)), turnId, 1, MessagesToDrop(buffer, turnId, max));
  }

  function CountKind(buffer: seq<Frame>, turnId: string, kind: FrameKind): nat {
    if buffer == [] then 0
    else (if buffer[0].turnId == turnId && buffer[0].kind == kind then 1 else 0) + CountKind(buffer[1..], turnId, kind)
  }

  lemma {:induction false} OtherKindsStay(buffer: seq<Frame>, turnId: string, rank: nat, n: nat, other: string, kind: FrameKind)
    requires other != turnId || !InClass(kind, rank)
    ensures CountKind(WithoutOldest(buffer, turnId, rank, n), other, kind) == CountKind(buffer, other, kind)
  {
    if n > 0 && buffer != [] {
      if Ranked(buffer[0], turnId, rank) {
        OtherKindsStay(buffer[1..], turnId, rank, n - 1, other, kind);
      } else {
        OtherKindsStay(buffer[1..], turnId, rank, n, other, kind);
        assert WithoutOldest(buffer, turnId, rank, n)[1..] == WithoutOldest(buffer[1..], turnId, rank, n);
      }
    }
  }

  lemma {:induction false} DeltasAreACount(buffer: seq<Frame>, turnId: string)
    ensures CountKind(buffer, turnId, TextDelta) == CountRank(buffer, turnId, 0)
  {
    if buffer != [] { DeltasAreACount(buffer[1..], turnId); }
  }

  lemma {:induction false} AllOfTheLastClass(buffer: seq<Frame>, turnId: string)
    requires CountOf(buffer, turnId) == CountRank(buffer, turnId, 2)
    ensures forall f :: f in buffer && f.turnId == turnId ==> !MayBeEvicted(f.kind)
  {
    CountsSplit(buffer, turnId);
    forall f | f in buffer && f.turnId == turnId ensures !MayBeEvicted(f.kind) {
      var i :| 0 <= i < |buffer| && buffer[i] == f;
      if f.kind.TextDelta? { SomeCounts(buffer, turnId, 0, i); }
      else if MayBeEvicted(f.kind) { SomeCounts(buffer, turnId, 1, i); }
    }
  }

  /** How many of each kind are left: no other Turn loses anything; this one loses text deltas, and
      messages and tool events only once none of its text deltas is left; it loses no more than it must,
      and stays over its bound only with frames that say how a Turn began or ended. */
  lemma BoundedCounts(buffer: seq<Frame>, turnId: string, max: nat, other: string, kind: FrameKind)
    ensures var kept := Bounded(buffer, turnId, max);
            && (other != turnId ==> CountKind(kept, other, kind) == CountKind(buffer, other, kind))
            && (kind.TurnEnded? || kind.TurnAccepted? || kind.TurnRejected? || kind.TurnUnknown? ==>
                  CountKind(kept, turnId, kind) == CountKind(buffer, turnId, kind))
            && (kind != TextDelta && CountKind(kept, turnId, kind) != CountKind(buffer, turnId, kind) ==>
                  CountKind(kept, turnId, TextDelta) == 0)
            && (kept == buffer || CountOf(kept, turnId) >= max)
            && (CountOf(kept, turnId) <= max
                || forall f :: f in kept && f.turnId == turnId ==>
                     f.kind.TurnEnded? || f.kind.TurnAccepted? || f.kind.TurnRejected? || f.kind.TurnUnknown?)
  {
    var d, m := DeltasToDrop(buffer, turnId, max), MessagesToDrop(buffer, turnId, max);
    var mid, kept := WithoutOldest(buffer, turnId, 0, d), Bounded(buffer, turnId, max);
    RankCounts(buffer, turnId, max, other);
    if other != turnId {
      OtherKindsStay(buffer, turnId, 0, d, other, kind);
      OtherKindsStay(mid, turnId, 1, m, other, kind);
    }
    if kind != TextDelta {
      OtherKindsStay(buffer, turnId, 0, d, turnId, kind);
      if !MayBeEvicted(kind) {
        OtherKindsStay(mid, turnId, 1, m, turnId, kind);
      } else if m > 0 {
        DeltasGoFirst(buffer, turnId, max);
      }
    }
    if CountOf(kept, turnId) > max { AllOfTheLastClass(kept, turnId); }
    if CountOf(kept, turnId) == CountRank(kept, turnId, 2) && kept != buffer {
      CountsSplit(buffer, turnId);
      NothingLeftToDrop(buffer, turnId, max);
    }
  }

  lemma DeltasGoFirst(buffer: seq<Frame>, turnId: string, max: nat)
    requires MessagesToDrop(buffer, turnId, max) > 0
    ensures CountKind(Bounded(buffer, turnId, max), turnId, TextDelta) == 0
  {
    var d, m := DeltasToDrop(buffer, turnId, max), MessagesToDrop(buffer, turnId, max);
    var mid := WithoutOldest(buffer, turnId, 0, d);
    CountsAfterDropping(buffer, turnId, 0, d, turnId, 0);
    CountsAfterDropping(buffer, turnId, 0, d, turnId, 1);
    CountsAfterDropping(mid, turnId, 1, m, turnId, 0);
    DeltasAreACount(Bounded(buffer, turnId, max), turnId);
  }

  /** What is dropped is at most what is in excess. */
  lemma NothingLeftToDrop(buffer: seq<Frame>, turnId: string, max: nat)
    ensures Bounded(buffer, turnId, max) == buffer || CountOf(Bounded(buffer, turnId, max), turnId) >= max
  {
    var d, m := DeltasToDrop(buffer, turnId, max), MessagesToDrop(buffer, turnId, max);
    var mid := WithoutOldest(buffer, turnId, 0, d);
    var kept := Bounded(buffer, turnId, max);
    forall r ensures CountRank(mid, turnId, r) == CountRank(buffer, turnId, r) - (if r == 0 then d else 0) {
      CountsAfterDropping(buffer, turnId, 0, d, turnId, r);
    }
    forall r ensures CountRank(kept, turnId, r) == CountRank(mid, turnId, r) - (if r == 1 then m else 0) {
      CountsAfterDropping(mid, turnId, 1, m, turnId, r);
    }
    CountsSplit(buffer, turnId);
    CountsSplit(kept, turnId);
  }

  /** Within a class the oldest go: whatever was dropped is older than whatever of the same Turn and
      class was kept. */
  lemma {:induction false} OldestAreDropped(buffer: seq<Frame>, turnId: string, rank: nat, n: nat)
    requires Ascending(buffer)
    ensures var kept := WithoutOldest(buffer, turnId, rank, n);
            forall f, g :: f in buffer && f !in kept && g in kept && Ranked(g, turnId, rank) ==> f.number < g.number
  {
    if n > 0 && buffer != [] {
      var rest := buffer[1..];
      assert buffer == [buffer[0]] + rest;
      var kept := WithoutOldest(buffer, turnId, rank, n);
      var m := if Ranked(buffer[0], turnId, rank) then n - 1 else n;
      OldestAreDropped(rest, turnId, rank, m);
      DroppingKeepsOrder(rest, turnId, rank, m);
      forall f, g | f in buffer && f !in kept && g in kept && Ranked(g, turnId, rank) ensures f.number < g.number {
        assert g in rest;
        if f !in rest { assert f == buffer[0]; }
      }
    }
  }

  /** The same of the whole eviction, over kinds: an evicted text delta is older than every text delta of
      its Turn that is kept, an evicted message or tool event older than every one of those. */
  lemma BoundedEvictsOldest(buffer: seq<Frame>, turnId: string, max: nat, f: Frame, g: Frame)
    requires Ascending(buffer) && f in buffer && f !in Bounded(buffer, turnId, max)
    requires g in Bounded(buffer, turnId, max) && g.turnId == turnId && MayBeEvicted(g.kind)
    requires f.kind.TextDelta? <==> g.kind.TextDelta?
    ensures f.number < g.number
  {
    var d, m := DeltasToDrop(buffer, turnId, max), MessagesToDrop(buffer, turnId, max);
    var mid := WithoutOldest(buffer, turnId, 0, d);
    DroppingKeepsOrder(buffer, turnId, 0, d);
    DroppingKeepsOrder(mid, turnId, 1, m);
    OldestAreDropped(buffer, turnId, 0, d);
    OldestAreDropped(mid, turnId, 1, m);
  }
}

/** Whether a call that failed on the network could have been delivered, read from a graph of error
    objects that may share parts and may be cyclic. */
module NetworkFailure {
  import opened Wrappers

  type NodeId = nat

  datatype Delivery = NotSent | MaybeDelivered

  /** What an error's `code` says by itself: `Setup`, raised only while a connection is set up; `Tls`, any
      other TLS code; `Broken`, a broken connection, a wait that ended, or an unreadable answer. */
  datatype CodeKind = NoCode | Setup | Tls | Broken | OtherCode

  /** `aborted`: the name is that of a caller that stopped waiting. `connecting`: the system call is one of
      connection setup. A member of `errors`, or a `cause`, that is no object is None. */
  datatype Node = Node(
    aborted: bool,
    code: CodeKind,
    connecting: bool,
    errors: seq<Option<NodeId>>,
    cause: Option<NodeId>)

  type Graph = map<NodeId, Node>

  const MAX_DEPTH := 8

  /** The caller stopped waiting, the code is a TLS error of an established session, or the connection
      broke after it was set up: the request may be with the target. */
  predicate SaysMaybe(n: Node) {
    n.aborted || n.code.Tls? || (n.code.Broken? && !n.connecting)
  }

  /** Nobody stopped waiting, and the failure belongs to connection setup: the request never left. */
  predicate SaysNotSent(n: Node) {
    !n.aborted && (n.code.Setup? || ((n.code.Broken? || n.code.OtherCode?) && n.connecting))
  }

  function OwnDelivery(n: Node): (own: Option<Delivery>)
    ensures own == Some(MaybeDelivered) <==> SaysMaybe(n)
    ensures own == Some(NotSent) <==> SaysNotSent(n)
  {
    if n.aborted then Some(MaybeDelivered)
    else match n.code
         case NoCode => None
         case Setup => Some(NotSent)
         case Tls => Some(MaybeDelivered)
         case Broken => if n.connecting then Some(NotSent) else Some(MaybeDelivered)
         case OtherCode => if n.connecting then Some(NotSent) else None
  }

  function Stronger(a: Option<Delivery>, b: Option<Delivery>): Option<Delivery> {
    if a == Some(MaybeDelivered) || b == Some(MaybeDelivered) then Some(MaybeDelivered)
    else if a.Some? then a else b
  }

  /** `maybe_delivered` over `not_sent` over nothing. */
  ghost function Strongest(g: Graph, nodes: set<NodeId>): Option<Delivery> {
    if exists n :: n in nodes && n in g && SaysMaybe(g[n]) then Some(MaybeDelivered)
    else if exists n :: n in nodes && n in g && SaysNotSent(g[n]) then Some(NotSent)
    else None
  }

  datatype Progress = Progress(found: Option<Delivery>, seen: set<NodeId>)

  function Visited(g: Graph, value: Option<NodeId>, depth: nat, p: Progress): Progress
    decreases MAX_DEPTH + 1 - depth, 1, 0
  {
    if value.None? || depth > MAX_DEPTH || value.value in p.seen || value.value !in g then p
    else
      var n := g[value.value];
      var q := Progress(Stronger(p.found, OwnDelivery(n)), p.seen + {value.value});
      Visited(g, n.cause, depth + 1, VisitedAll(g, n.errors, depth + 1, q))
  }

  function VisitedAll(g: Graph, values: seq<Option<NodeId>>, depth: nat, p: Progress): Progress
    requires depth > 0
    decreases MAX_DEPTH + 1 - depth, 2, |values|
  {
    if values == [] then p
    else VisitedAll(g, values[1..], depth, Visited(g, values[0], depth, p))
  }

  function NetworkFailureDelivery(g: Graph, err: Option<NodeId>): Option<Delivery> {
    Visited(g, err, 0, Progress(None, {})).found
  }

  /** The walk itself: one `found` and one `seen` for the whole traversal. */
  class Visitor {
    const graph: Graph
    var found: Option<Delivery>
    var seen: set<NodeId>

    constructor (graph: Graph)
      ensures this.graph == graph && found == None && seen == {}
    {
      this.graph := graph;
      found, seen := None, {};
    }

    method Visit(value: Option<NodeId>, depth: nat)
      modifies this`found, this`seen
      ensures Progress(found, seen) == Visited(graph, value, depth, old(Progress(found, seen)))
      decreases MAX_DEPTH + 1 - depth
    {
      if value.None? || value.value !in graph || depth > MAX_DEPTH || value.value in seen {
        return;
      }
      var n := graph[value.value];
      seen := seen + {value.value};
      var own := OwnDelivery(n);
      if own == Some(MaybeDelivered) {
        found := own;
      } else if own == Some(NotSent) && found.None? {
        found := own;
      }
      ghost var entered := Progress(found, seen);
      var i := 0;
      while i < |n.errors|
        invariant 0 <= i <= |n.errors|
        invariant VisitedAll(graph, n.errors[i..], depth + 1, Progress(found, seen)) == VisitedAll(graph, n.errors, depth + 1, entered)
      {
        assert n.errors[i..][1..] == n.errors[i + 1..];
        Visit(n.errors[i], depth + 1);
        i := i + 1;
      }
      Visit(n.cause, depth + 1);
    }
  }

  // ---------------------------------------------------------------------------------------------
  // What is found is what the visited nodes say
  // ---------------------------------------------------------------------------------------------

  ghost predicate FoundIsSeen(g: Graph, p: Progress) {
    p.found == Strongest(g, p.seen)
  }

  lemma AddingOne(g: Graph, p: Progress, n: NodeId)
    requires FoundIsSeen(g, p) && n in g
    ensures FoundIsSeen(g, Progress(Stronger(p.found, OwnDelivery(g[n])), p.seen + {n}))
  {
  }

  lemma {:induction false} FoundIsStrongest(g: Graph, value: Option<NodeId>, depth: nat, p: Progress)
    requires FoundIsSeen(g, p)
    ensures FoundIsSeen(g, Visited(g, value, depth, p))
    decreases MAX_DEPTH + 1 - depth, 1, 0
  {
    if value.Some? && depth <= MAX_DEPTH && value.value !in p.seen && value.value in g {
      var n := g[value.value];
      AddingOne(g, p, value.value);
      var q := Progress(Stronger(p.found, OwnDelivery(n)), p.seen + {value.value});
      FoundIsStrongestAll(g, n.errors, depth + 1, q);
      FoundIsStrongest(g, n.cause, depth + 1, VisitedAll(g, n.errors, depth + 1, q));
    }
  }

  lemma {:induction false} FoundIsStrongestAll(g: Graph, values: seq<Option<NodeId>>, depth: nat, p: Progress)
    requires FoundIsSeen(g, p) && depth > 0
    ensures FoundIsSeen(g, VisitedAll(g, values, depth, p))
    decreases MAX_DEPTH + 1 - depth, 2, |values|
  {
    if values != [] {
      FoundIsStrongest(g, values[0], depth, p);
      FoundIsStrongestAll(g, values[1..], depth, Visited(g, values[0], depth, p));
    }
  }

  // ---------------------------------------------------------------------------------------------
  // Trees
  // ---------------------------------------------------------------------------------------------

  /** The objects met on every path of at most `MAX_DEPTH` steps, each as often as it is met. */
  function Unfolded(g: Graph, value: Option<NodeId>, depth: nat): multiset<NodeId>
    decreases MAX_DEPTH + 1 - depth, 1, 0
  {
    if value.None? || depth > MAX_DEPTH || value.value !in g then multiset{}
    else
      multiset{value.value} + UnfoldedAll(g, g[value.value].errors, depth + 1) + Unfolded(g, g[value.value].cause, depth + 1)
  }

  function UnfoldedAll(g: Graph, values: seq<Option<NodeId>>, depth: nat): multiset<NodeId>
    requires depth > 0
    decreases MAX_DEPTH + 1 - depth, 2, |values|
  {
    if values == [] then multiset{}
    else Unfolded(g, values[0], depth) + UnfoldedAll(g, values[1..], depth)
  }

  /** No object is met twice, and none was seen before. */
  ghost predicate Fresh(m: multiset<NodeId>, seen: set<NodeId>) {
    forall n :: n in m ==> m[n] == 1 && n !in seen
  }

  ghost predicate SeenAlso(p: Progress, q: Progress, m: multiset<NodeId>) {
    forall n :: n in q.seen <==> n in p.seen || n in m
  }

  lemma {:induction false} TreeIsSeen(g: Graph, value: Option<NodeId>, depth: nat, p: Progress)
    requires Fresh(Unfolded(g, value, depth), p.seen)
    ensures SeenAlso(p, Visited(g, value, depth, p), Unfolded(g, value, depth))
    decreases MAX_DEPTH + 1 - depth, 1, 0
  {
    if value.Some? && depth <= MAX_DEPTH && value.value in g {
      var n := g[value.value];
      var here, inner, below := multiset{value.value}, UnfoldedAll(g, n.errors, depth + 1), Unfolded(g, n.cause, depth + 1);
      assert Unfolded(g, value, depth) == here + (inner + below);
      var q := Progress(Stronger(p.found, OwnDelivery(n)), p.seen + {value.value});
      FreshBelow(value.value, inner + below, p.seen);
      FreshSplits(inner, below, q.seen);
      TreeIsSeenAll(g, n.errors, depth + 1, q);
      var r := VisitedAll(g, n.errors, depth + 1, q);
      FreshAfter(inner, below, q, r);
      TreeIsSeen(g, n.cause, depth + 1, r);
      SeenInTurn(value.value, inner, below, p, q, r, Visited(g, n.cause, depth + 1, r));
    }
  }

  lemma {:induction false} TreeIsSeenAll(g: Graph, values: seq<Option<NodeId>>, depth: nat, p: Progress)
    requires depth > 0 && Fresh(UnfoldedAll(g, values, depth), p.seen)
    ensures SeenAlso(p, VisitedAll(g, values, depth, p), UnfoldedAll(g, values, depth))
    decreases MAX_DEPTH + 1 - depth, 2, |values|
  {
    if values != [] {
      FreshSplits(Unfolded(g, values[0], depth), UnfoldedAll(g, values[1..], depth), p.seen);
      TreeIsSeen(g, values[0], depth, p);
      TreeIsSeenAll(g, values[1..], depth, Visited(g, values[0], depth, p));
    }
  }

  lemma FreshAfter(inner: multiset<NodeId>, below: multiset<NodeId>, q: Progress, r: Progress)
    requires Fresh(inner + below, q.seen) && SeenAlso(q, r, inner)
    ensures Fresh(below, r.seen)
  {
    FreshSplits(inner, below, q.seen);
  }

  lemma SeenInTurn(v: NodeId, inner: multiset<NodeId>, below: multiset<NodeId>, p: Progress, q: Progress, r: Progress, s: Progress)
    requires q.seen == p.seen + {v} && SeenAlso(q, r, inner) && SeenAlso(r, s, below)
    ensures SeenAlso(p, s, multiset{v} + (inner + below))
  {
  }

  lemma FreshBelow(v: NodeId, below: multiset<NodeId>, seen: set<NodeId>)
    requires Fresh(multiset{v} + below, seen)
    ensures v !in seen && Fresh(below, seen + {v})
  {
    FreshSplits(multiset{v}, below, seen);
    assert v in multiset{v};
  }

  lemma FreshSplits(a: multiset<NodeId>, b: multiset<NodeId>, seen: set<NodeId>)
    requires Fresh(a + b, seen)
    ensures Fresh(a, seen) && Fresh(b, seen)
    ensures forall n :: n in a ==> n !in b
  {
    forall n ensures (n in a ==> a[n] == 1 && n !in seen && n !in b) && (n in b ==> b[n] == 1 && n !in seen) {
      assert (a + b)[n] == a[n] + b[n];
      assert n in a || n in b ==> n in a + b;
    }
  }

  ghost function Members(m: multiset<NodeId>): set<NodeId> {
    set n | n in m
  }

  ghost predicate TreeShaped(g: Graph, err: Option<NodeId>) {
    forall n :: n in Unfolded(g, err, 0) ==> Unfolded(g, err, 0)[n] == 1
  }

  /** On an error that is a tree as far as depth `MAX_DEPTH`, the answer is the strongest signal of any
      object down to that depth. */
  lemma ExactOnTrees(g: Graph, err: Option<NodeId>)
    requires TreeShaped(g, err)
    ensures NetworkFailureDelivery(g, err) == Strongest(g, Members(Unfolded(g, err, 0)))
  {
    var p := Progress(None, {});
    FoundIsStrongest(g, err, 0, p);
    TreeIsSeen(g, err, 0, p);
    assert Visited(g, err, 0, p).seen == Members(Unfolded(g, err, 0));
  }

  /** The same error, the members of each `errors` list in another order. */
  ghost predicate Reordered(g: Graph, h: Graph) {
    && g.Keys == h.Keys
    && forall n :: n in g ==> multiset(g[n].errors) == multiset(h[n].errors) && h[n] == g[n].(errors := h[n].errors)
  }

  lemma {:induction false} UnfoldedAllAt(g: Graph, values: seq<Option<NodeId>>, depth: nat, i: nat)
    requires depth > 0 && i < |values|
    ensures UnfoldedAll(g, values, depth) == Unfolded(g, values[i], depth) + UnfoldedAll(g, values[..i] + values[i + 1..], depth)
    decreases i
  {
    if i == 0 {
      assert values[..0] + values[1..] == values[1..];
    } else {
      var rest := values[..i] + values[i + 1..];
      assert rest[1..] == values[1..][..i - 1] + values[1..][i..];
      UnfoldedAllAt(g, values[1..], depth, i - 1);
    }
  }

  lemma {:induction false} OrderIsLost(g: Graph, h: Graph, value: Option<NodeId>, depth: nat)
    requires Reordered(g, h)
    ensures Unfolded(g, value, depth) == Unfolded(h, value, depth)
    decreases MAX_DEPTH + 1 - depth, 1, 0
  {
    if value.Some? && depth <= MAX_DEPTH && value.value in g {
      OrderIsLostAll(g, h, g[value.value].errors, h[value.value].errors, depth + 1);
      OrderIsLost(g, h, g[value.value].cause, depth + 1);
    }
  }

  lemma {:induction false} OrderIsLostAll(g: Graph, h: Graph, a: seq<Option<NodeId>>, b: seq<Option<NodeId>>, depth: nat)
    requires Reordered(g, h) && depth > 0 && multiset(a) == multiset(b)
    ensures UnfoldedAll(g, a, depth) == UnfoldedAll(h, b, depth)
    decreases MAX_DEPTH + 1 - depth, 2, |a|
  {
    if a == [] {
      assert |multiset(b)| == |b|;
    } else {
      var i := FindFirst(a, b);
      OrderIsLost(g, h, a[0], depth);
      OrderIsLostAll(g, h, a[1..], b[..i] + b[i + 1..], depth);
      UnfoldedAllAt(h, b, depth, i);
    }
  }

  lemma FindFirst(a: seq<Option<NodeId>>, b: seq<Option<NodeId>>) returns (i: nat)
    requires a != [] && multiset(a) == multiset(b)
    ensures i < |b| && b[i] == a[0] && multiset(a[1..]) == multiset(b[..i] + b[i + 1..])
  {
    assert a[0] in multiset(b);
    i :| 0 <= i < |b| && b[i] == a[0];
    assert b == b[..i] + [b[i]] + b[i + 1..];
    assert a == [a[0]] + a[1..];
    assert multiset(b[..i] + b[i + 1..]) == multiset(b) - multiset{a[0]} == multiset(a[1..]);
  }

  lemma StrongestIgnoresOrder(g: Graph, h: Graph, nodes: set<NodeId>)
    requires Reordered(g, h)
    ensures Strongest(g, nodes) == Strongest(h, nodes)
  {
    assert forall n :: n in g ==> n in h && SaysMaybe(g[n]) == SaysMaybe(h[n]) && SaysNotSent(g[n]) == SaysNotSent(h[n]);
    assert forall n :: n in h ==> n in g;
  }

  lemma OrderDoesNotMatter(g: Graph, h: Graph, err: Option<NodeId>)
    requires Reordered(g, h) && TreeShaped(g, err)
    ensures NetworkFailureDelivery(g, err) == NetworkFailureDelivery(h, err)
  {
    OrderIsLost(g, h, err, 0);
    ExactOnTrees(g, err);
    ExactOnTrees(h, err);
    StrongestIgnoresOrder(g, h, Members(Unfolded(g, err, 0)));
  }

  // ---------------------------------------------------------------------------------------------
  // Any shape
  // ---------------------------------------------------------------------------------------------

  predicate IsChild(n: Node, c: NodeId) {
    n.cause == Some(c) || Some(c) in n.errors
  }

  ghost predicate Closed(g: Graph, nodes: set<NodeId>, seen: set<NodeId>) {
    forall n, c :: n in nodes && n in g && IsChild(g[n], c) && c in g ==> c in seen
  }

  /** What a visit owes: it adds, it has seen its object, and everything below what it added. */
  ghost predicate Explored(g: Graph, value: Option<NodeId>, p: Progress, q: Progress) {
    && p.seen <= q.seen <= p.seen + g.Keys
    && (value.Some? && value.value in g ==> value.value in q.seen)
    && Closed(g, q.seen - p.seen, q.seen)
  }

  /** A way from `err` down that meets no object twice. */
  ghost predicate IsPath(g: Graph, err: NodeId, path: seq<NodeId>) {
    && (path != [] ==> path[0] == err)
    && (forall i :: 0 <= i < |path| ==> path[i] in g)
    && (forall i, j :: 0 <= i < j < |path| ==> path[i] != path[j])
    && (forall i :: 0 < i < |path| ==> IsChild(g[path[i - 1]], path[i]))
  }

  /** No such way has more than `MAX_DEPTH` steps. */
  ghost predicate ShortPaths(g: Graph, err: NodeId) {
    forall path {:trigger IsPath(g, err, path)} :: IsPath(g, err, path) ==> |path| <= MAX_DEPTH + 1
  }

  /** The walk stands at the end of `path`, before `value`. */
  ghost predicate Standing(g: Graph, err: NodeId, path: seq<NodeId>, value: Option<NodeId>, seen: set<NodeId>) {
    && IsPath(g, err, path)
    && (forall i :: 0 <= i < |path| ==> path[i] in seen)
    && (value.Some? && value.value in g ==>
          if path == [] then value.value == err else IsChild(g[path[|path| - 1]], value.value))
  }

  lemma PathGrows(g: Graph, err: NodeId, path: seq<NodeId>, v: NodeId, seen: set<NodeId>)
    requires Standing(g, err, path, Some(v), seen) && v in g && v !in seen
    ensures IsPath(g, err, path + [v]) && forall i :: 0 <= i < |path + [v]| ==> (path + [v])[i] in seen + {v}
  {
  }

  /** A way of new objects is never so long that anything is cut off. */
  lemma {:induction false} ShortIsExplored(g: Graph, err: NodeId, path: seq<NodeId>, value: Option<NodeId>, p: Progress)
    requires ShortPaths(g, err) && Standing(g, err, path, value, p.seen) && |path| <= MAX_DEPTH + 1
    ensures Explored(g, value, p, Visited(g, value, |path|, p))
    decreases MAX_DEPTH + 1 - |path|, 1, 0
  {
    if value.Some? && value.value in g && value.value !in p.seen {
      var v := value.value;
      PathGrows(g, err, path, v, p.seen);
      assert |path + [v]| <= MAX_DEPTH + 1;
      var n := g[v];
      var q := Progress(Stronger(p.found, OwnDelivery(n)), p.seen + {v});
      assert forall c :: Some(c) in n.errors ==> IsChild(n, c);
      ShortIsExploredAll(g, err, path + [v], n.errors, q);
      var r := VisitedAll(g, n.errors, |path| + 1, q);
      ShortIsExplored(g, err, path + [v], n.cause, r);
      ExploredFrom(g, v, p, q, r, Visited(g, n.cause, |path| + 1, r));
    }
  }

  /** An object, then everything in its `errors`, then its cause. */
  lemma ExploredFrom(g: Graph, v: NodeId, p: Progress, q: Progress, r: Progress, s: Progress)
    requires v in g && q.seen == p.seen + {v}
    requires Explored(g, None, q, r) && (forall c :: Some(c) in g[v].errors && c in g ==> c in r.seen)
    requires Explored(g, g[v].cause, r, s)
    ensures Explored(g, Some(v), p, s)
  {
    forall n, c | n in s.seen - p.seen && n in g && IsChild(g[n], c) && c in g ensures c in s.seen {
      if n == v || n in r.seen - q.seen {
        assert c in r.seen || g[v].cause == Some(c);
      } else {
        assert n in s.seen - r.seen;
      }
    }
  }

  lemma {:induction false} ShortIsExploredAll(g: Graph, err: NodeId, path: seq<NodeId>, values: seq<Option<NodeId>>, p: Progress)
    requires ShortPaths(g, err) && path != [] && |path| <= MAX_DEPTH + 1 && Standing(g, err, path, None, p.seen)
    requires forall c :: Some(c) in values && c in g ==> IsChild(g[path[|path| - 1]], c)
    ensures var q := VisitedAll(g, values, |path|, p);
            && Explored(g, None, p, q)
            && forall c :: Some(c) in values && c in g ==> c in q.seen
    decreases MAX_DEPTH + 1 - |path|, 2, |values|
  {
    if values != [] {
      assert values[0] in values;
      var q := Visited(g, values[0], |path|, p);
      ShortIsExplored(g, err, path, values[0], p);
      ShortIsExploredAll(g, err, path, values[1..], q);
      assert values == [values[0]] + values[1..];
    }
  }

  least predicate Reaches(g: Graph, from: NodeId, to: NodeId) {
    from in g && (from == to || exists c :: c in g && IsChild(g[from], c) && Reaches(g, c, to))
  }

  lemma {:induction false} ClosedHoldsReachable(g: Graph, nodes: set<NodeId>, from: NodeId, to: NodeId)
    requires Reaches(g, from, to) && from in nodes && Closed(g, nodes, nodes)
    ensures to in nodes
  {
    ClosedHolds(g, nodes, from, to);
  }

  least lemma ClosedHolds(g: Graph, nodes: set<NodeId>, from: NodeId, to: NodeId)
    requires Reaches(g, from, to)
    requires from in nodes && Closed(g, nodes, nodes)
    ensures to in nodes
  {
    if from != to {
      var c :| c in g && IsChild(g[from], c) && Reaches#[_k - 1](g, c, to);
      ClosedHolds(g, nodes, c, to);
    }
  }

  lemma {:induction false} SeenStaysInside(g: Graph, value: Option<NodeId>, depth: nat, p: Progress, nodes: set<NodeId>)
    requires value.Some? && value.value in g ==> value.value in nodes
    requires Closed(g, nodes, nodes) && p.seen <= nodes
    ensures Visited(g, value, depth, p).seen <= nodes
    decreases MAX_DEPTH + 1 - depth, 1, 0
  {
    if value.Some? && depth <= MAX_DEPTH && value.value !in p.seen && value.value in g {
      var n := g[value.value];
      var q := Progress(Stronger(p.found, OwnDelivery(n)), p.seen + {value.value});
      assert forall c :: Some(c) in n.errors ==> IsChild(n, c);
      SeenStaysInsideAll(g, n.errors, depth + 1, q, nodes);
      SeenStaysInside(g, n.cause, depth + 1, VisitedAll(g, n.errors, depth + 1, q), nodes);
    }
  }

  lemma {:induction false} SeenStaysInsideAll(g: Graph, values: seq<Option<NodeId>>, depth: nat, p: Progress, nodes: set<NodeId>)
    requires depth > 0 && forall c :: Some(c) in values && c in g ==> c in nodes
    requires Closed(g, nodes, nodes) && p.seen <= nodes
    ensures VisitedAll(g, values, depth, p).seen <= nodes
    decreases MAX_DEPTH + 1 - depth, 2, |values|
  {
    if values != [] {
      assert values[0] in values;
      SeenStaysInside(g, values[0], depth, p, nodes);
      SeenStaysInsideAll(g, values[1..], depth, Visited(g, values[0], depth, p), nodes);
    }
  }

  least lemma OneFurther(g: Graph, from: NodeId, n: NodeId, c: NodeId)
    requires Reaches(g, from, n)
    requires n in g && IsChild(g[n], c) && c in g
    ensures Reaches(g, from, c)
  {
    if from == n {
      ReachesBelow(g, from, c, c);
    } else {
      var d :| d in g && IsChild(g[from], d) && Reaches#[_k - 1](g, d, n);
      OneFurther(g, d, n, c);
    }
  }

  lemma ReachesBelow(g: Graph, from: NodeId, c: NodeId, to: NodeId)
    requires from in g && c in g && IsChild(g[from], c) && (c == to || Reaches(g, c, to))
    ensures Reaches(g, from, to)
  {
    assert Reaches(g, c, to);
  }

  /** Everything that can be reached, however far away. */
  ghost function Reachable(g: Graph, err: NodeId): set<NodeId> {
    set n | n in g && Reaches(g, err, n)
  }

  /** The answer is the strongest signal of everything that can be reached. */
  ghost predicate Exact(g: Graph, err: NodeId) {
    NetworkFailureDelivery(g, Some(err)) == Strongest(g, Reachable(g, err))
  }

  /** Where no way down meets more than nine objects, shared or in a cycle or not, the answer is exact. */
  lemma ExactOnShortPaths(g: Graph, err: NodeId)
    requires err in g && ShortPaths(g, err)
    ensures Exact(g, err)
  {
    var reachable := Reachable(g, err);
    var p := Progress(None, {});
    var q := Visited(g, Some(err), 0, p);
    FoundIsStrongest(g, Some(err), 0, p);
    ShortIsExplored(g, err, [], Some(err), p);
    forall n, c | n in reachable && n in g && IsChild(g[n], c) && c in g ensures c in reachable {
      OneFurther(g, err, n, c);
    }
    assert Reaches(g, err, err);
    SeenStaysInside(g, Some(err), 0, p, reachable);
    forall n | n in reachable ensures n in q.seen {
      ClosedHoldsReachable(g, q.seen, err, n);
    }
    assert q.seen == reachable;
  }

  lemma {:induction false} PathFits(g: Graph, path: seq<NodeId>)
    requires forall i :: 0 <= i < |path| ==> path[i] in g
    requires forall i, j :: 0 <= i < j < |path| ==> path[i] != path[j]
    ensures |path| <= |g.Keys|
  {
    if path != [] {
      var n := |path| - 1;
      var h := g - {path[n]};
      assert h.Keys == g.Keys - {path[n]};
      PathFits(h, path[..n]);
    }
  }

  lemma ExactUpToNine(g: Graph, err: NodeId)
    requires err in g && |g.Keys| <= MAX_DEPTH + 1
    ensures Exact(g, err)
  {
    forall path | IsPath(g, err, path) ensures |path| <= MAX_DEPTH + 1 {
      PathFits(g, path);
    }
    ExactOnShortPaths(g, err);
  }

  function Plain(cause: Option<NodeId>): Node {
    Node(false, NoCode, false, [], cause)
  }

  /** A root with two ways to object 8, one as long as the depth allows and one short; a signal below it;
      and any number of objects beside. */
  function NodeOf(i: nat): Node {
    if i == 0 then Node(false, NoCode, false, [Some(1)], Some(8))
    else if i < 9 then Plain(Some(i + 1))
    else if i == 9 then Node(false, Broken, false, [], None)
    else Plain(None)
  }

  ghost predicate HoldsTen(g: Graph) {
    forall i: nat :: i < 10 ==> i in g && g[i] == NodeOf(i)
  }

  ghost predicate UpTo(seen: set<NodeId>, n: nat) {
    forall i :: i in seen <==> 0 <= i < n
  }

  lemma {:induction false} DownTheChain(g: Graph, n: nat, p: Progress)
    requires HoldsTen(g) && 1 <= n <= 8 && p.found == None && UpTo(p.seen, n)
    ensures Visited(g, Some(n), n, p).found == None && UpTo(Visited(g, Some(n), n, p).seen, 9)
    decreases 8 - n
  {
    var q := Progress(None, p.seen + {n});
    LinkOfTheChain(g, n, p);
    if n < 8 {
      DownTheChain(g, n + 1, q);
    } else {
      assert Visited(g, Some(9), 9, q) == q;
    }
  }

  lemma LinkOfTheChain(g: Graph, n: nat, p: Progress)
    requires HoldsTen(g) && 1 <= n <= 8 && p.found == None && n !in p.seen
    ensures Visited(g, Some(n), n, p) == Visited(g, Some(n + 1), n + 1, Progress(None, p.seen + {n}))
  {
    assert g[n] == NodeOf(n) == Plain(Some(n + 1));
    var q := Progress(None, p.seen + {n});
    assert Stronger(p.found, OwnDelivery(g[n])) == None;
    assert VisitedAll(g, [], n + 1, q) == q;
  }

  lemma SharedObjectIsCutOff(g: Graph)
    requires HoldsTen(g)
    ensures NetworkFailureDelivery(g, Some(0)) == None
  {
    assert g[0] == NodeOf(0);
    var p := Progress(None, {0});
    DownTheChain(g, 1, p);
    var q := Visited(g, Some(1), 1, p);
    assert [Some(1)][1..] == [];
    assert VisitedAll(g, [Some(1)], 1, p) == VisitedAll(g, [], 1, q) == q;
    assert Visited(g, Some(8), 1, q) == q;
  }

  lemma SharedObjectIsThere(g: Graph)
    requires HoldsTen(g)
    ensures Reaches(g, 0, 9) && SaysMaybe(g[9])
  {
    assert g[0] == NodeOf(0) && g[8] == NodeOf(8) && g[9] == NodeOf(9);
    ReachesBelow(g, 8, 9, 9);
    ReachesBelow(g, 0, 8, 9);
  }

  /** An object first met at the greatest depth hides what is below it, although a shorter way leads
      there too. */
  lemma TenAreTooMany(g: Graph)
    requires HoldsTen(g)
    ensures !Exact(g, 0)
  {
    SharedObjectIsCutOff(g);
    SharedObjectIsThere(g);
    assert 9 in Reachable(g, 0);
  }

  lemma {:induction false} Counting(s: set<NodeId>, n: nat)
    requires UpTo(s, n)
    ensures |s| == n
  {
    if n > 0 {
      Counting(s - {n - 1}, n - 1);
    } else {
      assert s == {};
    }
  }

  lemma GraphOf(n: nat) returns (g: Graph)
    requires n >= 10
    ensures HoldsTen(g) && |g.Keys| == n
  {
    g := map i: nat | i < n :: NodeOf(i);
    Counting(g.Keys, n);
  }

  ghost predicate ExactOnAll(n: nat) {
    forall g: Graph, err {:trigger Exact(g, err)} :: |g.Keys| == n && err in g ==> Exact(g, err)
  }

  /** The answer is exact on every graph of `n` objects, whatever its shape, if and only if `n` is at most
      nine. */
  lemma ExactIffUpToNine(n: nat)
    ensures ExactOnAll(n) <==> n <= MAX_DEPTH + 1
  {
    if n <= MAX_DEPTH + 1 {
      forall g: Graph, err | |g.Keys| == n && err in g ensures Exact(g, err) {
        ExactUpToNine(g, err);
      }
    } else {
      var g := GraphOf(n);
      TenAreTooMany(g);
      assert 0 in g;
    }
  }

  // ---------------------------------------------------------------------------------------------
  // The answer, read off the objects' own fields
  // ---------------------------------------------------------------------------------------------

  /** Among `nodes`: a caller that stopped waiting, a TLS error, or a connection that broke once it was
      set up. */
  ghost predicate SomeMayBeDelivered(g: Graph, nodes: set<NodeId>) {
    exists n :: n in nodes && n in g && (g[n].aborted || g[n].code == Tls || (g[n].code == Broken && !g[n].connecting))
  }

  /** Among `nodes`: a failure of connection setup nobody stopped waiting for. */
  ghost predicate SomeNeverSent(g: Graph, nodes: set<NodeId>) {
    exists n :: n in nodes && n in g && !g[n].aborted
                && (g[n].code == Setup || (g[n].connecting && (g[n].code == Broken || g[n].code == OtherCode)))
  }

  /** `r` is the safe reading of `nodes`: any doubt about one of them is a doubt about the call. */
  ghost predicate SafeReading(g: Graph, nodes: set<NodeId>, r: Option<Delivery>) {
    && (r == Some(MaybeDelivered) <==> SomeMayBeDelivered(g, nodes))
    && (r == Some(NotSent) <==> !SomeMayBeDelivered(g, nodes) && SomeNeverSent(g, nodes))
  }

  lemma StrongestIsSafe(g: Graph, nodes: set<NodeId>)
    ensures SafeReading(g, nodes, Strongest(g, nodes))
  {
  }

  /** On every error no way down which meets more than nine objects, the answer is the safe reading of
      everything that can be reached from it. */
  lemma ReachableIsReadSafely(g: Graph, err: NodeId)
    requires err in g && (ShortPaths(g, err) || |g.Keys| <= MAX_DEPTH + 1)
    ensures SafeReading(g, Reachable(g, err), NetworkFailureDelivery(g, Some(err)))
  {
    if |g.Keys| <= MAX_DEPTH + 1 { ExactUpToNine(g, err); } else { ExactOnShortPaths(g, err); }
    StrongestIsSafe(g, Reachable(g, err));
  }

  /** On trees, of everything down to depth `MAX_DEPTH`. */
  lemma TreesAreReadSafely(g: Graph, err: Option<NodeId>)
    requires TreeShaped(g, err)
    ensures SafeReading(g, Members(Unfolded(g, err, 0)), NetworkFailureDelivery(g, err))
  {
    ExactOnTrees(g, err);
    StrongestIsSafe(g, Members(Unfolded(g, err, 0)));
  }

  lemma {:induction false} SeenStays(g: Graph, value: Option<NodeId>, depth: nat, p: Progress)
    ensures p.seen <= Visited(g, value, depth, p).seen
    decreases MAX_DEPTH + 1 - depth, 1, 0
  {
    if value.Some? && depth <= MAX_DEPTH && value.value !in p.seen && value.value in g {
      var n := g[value.value];
      var q := Progress(Stronger(p.found, OwnDelivery(n)), p.seen + {value.value});
      SeenStaysAll(g, n.errors, depth + 1, q);
      SeenStays(g, n.cause, depth + 1, VisitedAll(g, n.errors, depth + 1, q));
    }
  }

  lemma {:induction false} SeenStaysAll(g: Graph, values: seq<Option<NodeId>>, depth: nat, p: Progress)
    requires depth > 0
    ensures p.seen <= VisitedAll(g, values, depth, p).seen
    decreases MAX_DEPTH + 1 - depth, 2, |values|
  {
    if values != [] {
      SeenStays(g, values[0], depth, p);
      SeenStaysAll(g, values[1..], depth, Visited(g, values[0], depth, p));
    }
  }

  /** On a graph of any shape the answer is about objects that can be reached, and a doubt about the error
      itself is never lost: it reads as possibly delivered. */
  lemma AnyShapeIsReadSoundly(g: Graph, err: NodeId)
    requires err in g
    ensures var r := NetworkFailureDelivery(g, Some(err));
            && (r == Some(MaybeDelivered) ==> SomeMayBeDelivered(g, Reachable(g, err)))
            && (r == Some(NotSent) ==> SomeNeverSent(g, Reachable(g, err)))
            && (g[err].aborted || g[err].code == Tls || (g[err].code == Broken && !g[err].connecting) ==>
                  r == Some(MaybeDelivered))
  {
    var p, reachable := Progress(None, {}), Reachable(g, err);
    FoundIsStrongest(g, Some(err), 0, p);
    forall n, c | n in reachable && n in g && IsChild(g[n], c) && c in g ensures c in reachable {
      OneFurther(g, err, n, c);
    }
    assert Reaches(g, err, err);
    SeenStaysInside(g, Some(err), 0, p, reachable);
    var q := Progress(Stronger(None, OwnDelivery(g[err])), {err});
    SeenStaysAll(g, g[err].errors, 1, q);
    SeenStays(g, g[err].cause, 1, VisitedAll(g, g[err].errors, 1, q));
    assert {} + {err} == {err};
    assert err in Visited(g, Some(err), 0, p).seen;
  }
}

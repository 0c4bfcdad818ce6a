/** The subtree of a process, found breadth first over parent pointers of any shape. */
module ProcessTree {
  import opened Wrappers

  datatype Process = Process(pid: int, ppid: int, commandLine: string)

  predicate IsChild(processes: seq<Process>, parent: int, pid: int) {
    exists i :: 0 <= i < |processes| && processes[i].ppid == parent && processes[i].pid == pid
  }

  /** The root, its children, theirs, and so on. */
  least predicate Below(processes: seq<Process>, root: int, pid: int) {
    pid == root || exists parent :: Below(processes, root, parent) && IsChild(processes, parent, pid)
  }

  function ChildrenOf(processes: seq<Process>, parent: int): seq<Process> {
    if processes == [] then []
    else (if processes[0].ppid == parent then [processes[0]] else []) + ChildrenOf(processes[1..], parent)
  }

  function Pids(processes: seq<Process>): set<int> {
    set p | p in processes :: p.pid
  }

  lemma {:induction false} ChildrenFacts(processes: seq<Process>, parent: int)
    ensures forall p :: p in ChildrenOf(processes, parent) <==> p in processes && p.ppid == parent
  {
    if processes != [] {
      assert processes == [processes[0]] + processes[1..];
      ChildrenFacts(processes[1..], parent);
    }
  }

  lemma ChildrenAreChildren(processes: seq<Process>, parent: int, pid: int)
    ensures pid in Pids(ChildrenOf(processes, parent)) <==> IsChild(processes, parent, pid)
  {
    ChildrenFacts(processes, parent);
    if pid in Pids(ChildrenOf(processes, parent)) {
      var p :| p in ChildrenOf(processes, parent) && p.pid == pid;
      assert p in processes;
      var i :| 0 <= i < |processes| && processes[i] == p;
      assert processes[i].ppid == parent && processes[i].pid == pid;
    }
    if IsChild(processes, parent, pid) {
      var i :| 0 <= i < |processes| && processes[i].ppid == parent && processes[i].pid == pid;
      assert processes[i] in ChildrenOf(processes, parent);
    }
  }

  lemma ChildIsBelow(processes: seq<Process>, root: int, parent: int, pid: int)
    requires Below(processes, root, parent) && IsChild(processes, parent, pid)
    ensures Below(processes, root, pid)
  {
  }

  least lemma ClosedHoldsBelow(processes: seq<Process>, root: int, pid: int, pids: set<int>)
    requires Below(processes, root, pid)
    requires root in pids
    requires forall a, b :: a in pids && IsChild(processes, a, b) ==> b in pids
    ensures pid in pids
  {
    if pid != root {
      var parent :| Below#[_k - 1](processes, root, parent) && IsChild(processes, parent, pid);
      ClosedHoldsBelow(processes, root, parent, pids);
    }
  }

  ghost predicate EachOnce(processes: seq<Process>) {
    forall i, j :: 0 <= i < j < |processes| ==> processes[i].pid != processes[j].pid
  }

  /** What the walk has found: each once, all of them listed, all below the root. */
  ghost predicate Found(processes: seq<Process>, root: int, result: seq<Process>, visited: set<int>) {
    && visited == Pids(result)
    && EachOnce(result)
    && (forall p :: p in result ==> p in processes && Below(processes, root, p.pid))
  }

  /** Everything that was taken from the queue has had its children visited. */
  ghost predicate Expanded(processes: seq<Process>, result: seq<Process>, queue: seq<Process>, visited: set<int>) {
    && |queue| <= |result| && queue == result[|result| - |queue|..]
    && forall i, pid :: 0 <= i < |result| - |queue| && IsChild(processes, result[i].pid, pid) ==> pid in visited
  }

  function Siblings(byParent: map<int, seq<Process>>, parent: int): seq<Process> {
    if parent in byParent then byParent[parent] else []
  }

  ghost predicate Groups(byParent: map<int, seq<Process>>, processes: seq<Process>) {
    forall parent {:trigger Siblings(byParent, parent)} :: Siblings(byParent, parent) == ChildrenOf(processes, parent)
  }

  lemma GroupsOneMore(byParent: map<int, seq<Process>>, processes: seq<Process>, p: Process)
    requires Groups(byParent, processes)
    ensures Groups(byParent[p.ppid := Siblings(byParent, p.ppid) + [p]], processes + [p])
  {
    var after := byParent[p.ppid := Siblings(byParent, p.ppid) + [p]];
    forall parent ensures Siblings(after, parent) == ChildrenOf(processes + [p], parent) {
      ChildrenAppend(processes, p, parent);
      assert Siblings(byParent, parent) == ChildrenOf(processes, parent);
    }
  }

  method Group(processes: seq<Process>) returns (byParent: map<int, seq<Process>>)
    ensures Groups(byParent, processes)
  {
    byParent := map[];
    var i := 0;
    while i < |processes|
      invariant 0 <= i <= |processes|
      invariant Groups(byParent, processes[..i])
    {
      var process := processes[i];
      GroupsOneMore(byParent, processes[..i], process);
      assert processes[..i + 1] == processes[..i] + [process];
      byParent := byParent[process.ppid := Siblings(byParent, process.ppid) + [process]];
      i := i + 1;
    }
    assert processes[..i] == processes;
  }

  lemma {:induction false} ChildrenAppend(processes: seq<Process>, p: Process, parent: int)
    ensures ChildrenOf(processes + [p], parent) == ChildrenOf(processes, parent) + (if p.ppid == parent then [p] else [])
  {
    if processes == [] {
      assert processes + [p] == [p];
    } else {
      var rest, here := ChildrenOf(processes[1..], parent), if processes[0].ppid == parent then [processes[0]] else [];
      assert (processes + [p])[1..] == processes[1..] + [p] && (processes + [p])[0] == processes[0];
      ChildrenAppend(processes[1..], p, parent);
      assert here + (rest + (if p.ppid == parent then [p] else [])) == here + rest + (if p.ppid == parent then [p] else []);
    }
  }

  /** One process taken from the queue: its children not yet visited are pushed, each pid once. */
  method Expand(children: seq<Process>, result0: seq<Process>, visited0: set<int>)
    returns (result: seq<Process>, visited: set<int>, pushed: seq<Process>)
    ensures result == result0 + pushed && visited == visited0 + Pids(pushed)
    ensures New(children, visited0, pushed)
    ensures forall p :: p in children ==> p.pid in visited
  {
    result, visited, pushed := result0, visited0, [];
    var i := 0;
    while i < |children|
      invariant 0 <= i <= |children|
      invariant result == result0 + pushed && visited == visited0 + Pids(pushed)
      invariant New(children, visited0, pushed)
      invariant VisitedUpTo(children, i, visited)
    {
      var child := children[i];
      if child.pid !in visited {
        NewOne(children, visited0, pushed, child);
        result, visited, pushed := result + [child], visited + {child.pid}, pushed + [child];
      }
      i := i + 1;
    }
  }

  ghost predicate New(children: seq<Process>, visited0: set<int>, pushed: seq<Process>) {
    EachOnce(pushed) && forall p :: p in pushed ==> p in children && p.pid !in visited0
  }

  lemma NewOne(children: seq<Process>, visited0: set<int>, pushed: seq<Process>, child: Process)
    requires New(children, visited0, pushed) && child in children && child.pid !in visited0 + Pids(pushed)
    ensures New(children, visited0, pushed + [child]) && Pids(pushed + [child]) == Pids(pushed) + {child.pid}
  {
    forall i | 0 <= i < |pushed| ensures pushed[i].pid in Pids(pushed) {
      assert pushed[i] in pushed;
    }
    assert forall p :: p in pushed + [child] <==> p in pushed || p == child;
  }

  lemma NewAreFound(processes: seq<Process>, root: int, result: seq<Process>, visited: set<int>, parent: Process, pushed: seq<Process>)
    requires Found(processes, root, result, visited) && parent in result
    requires New(ChildrenOf(processes, parent.pid), visited, pushed)
    ensures Found(processes, root, result + pushed, visited + Pids(pushed))
  {
    ChildrenFacts(processes, parent.pid);
    forall p | p in pushed ensures p in processes && Below(processes, root, p.pid) {
      var i :| 0 <= i < |processes| && processes[i] == p;
      assert IsChild(processes, parent.pid, p.pid);
      ChildIsBelow(processes, root, parent.pid, p.pid);
    }
    forall i, j | 0 <= i < |result| && 0 <= j < |pushed| ensures result[i].pid != pushed[j].pid {
      assert result[i] in result && pushed[j] in pushed;
    }
    assert forall p :: p in result + pushed <==> p in result || p in pushed;
    assert Pids(result + pushed) == Pids(result) + Pids(pushed);
  }

  lemma {:induction false} PidsCount(processes: seq<Process>)
    requires EachOnce(processes)
    ensures |Pids(processes)| == |processes|
  {
    if processes != [] {
      var n := |processes| - 1;
      PidsCount(processes[..n]);
      assert processes == processes[..n] + [processes[n]];
      assert processes[n].pid !in Pids(processes[..n]);
      assert Pids(processes) == Pids(processes[..n]) + {processes[n].pid};
    }
  }

  ghost predicate VisitedUpTo(children: seq<Process>, n: nat, visited: set<int>) {
    forall k :: 0 <= k < n && k < |children| ==> children[k].pid in visited
  }

  method Find(processes: seq<Process>, rootPid: int) returns (root: Option<Process>)
    ensures root.None? <==> rootPid !in Pids(processes)
    ensures root.Some? ==> root.value in processes && root.value.pid == rootPid
  {
    var i := 0;
    while i < |processes|
      invariant 0 <= i <= |processes|
      invariant forall k :: 0 <= k < i ==> processes[k].pid != rootPid
    {
      if processes[i].pid == rootPid {
        return Some(processes[i]);
      }
      i := i + 1;
    }
    root := None;
  }

  /** Exactly the processes below the root, each pid once, the root first; nothing when there is no such
      process. Parent pointers may form cycles. */
  method SubtreeOf(processes: seq<Process>, rootPid: int) returns (result: seq<Process>)
    ensures rootPid !in Pids(processes) ==> result == []
    ensures rootPid in Pids(processes) ==>
              && EachOnce(result) && result != [] && result[0].pid == rootPid
              && (forall p :: p in result ==> p in processes)
              && (forall pid :: pid in Pids(result) <==> Below(processes, rootPid, pid))
  {
    var byParent := Group(processes);
    var root := Find(processes, rootPid);
    if root.None? {
      return [];
    }
    var visited := {rootPid};
    result := [root.value];
    var queue := [root.value];
    assert Below(processes, rootPid, rootPid);
    while |queue| > 0
      invariant Walk(processes, rootPid, result, queue, visited)
      decreases |Pids(processes)| - (|result| - |queue|)
    {
      var current := queue[0];
      var children := Siblings(byParent, current.pid);
      ghost var result0, queue0, visited0 := result, queue, visited;
      var pushed: seq<Process>;
      result, visited, pushed := Expand(children, result, visited);
      queue := queue[1..] + pushed;
      WalkOn(processes, rootPid, result0, queue0, visited0, pushed);
    }
    WalkIsWhole(processes, rootPid, result, visited);
  }

  ghost predicate Walk(processes: seq<Process>, root: int, result: seq<Process>, queue: seq<Process>, visited: set<int>) {
    && Found(processes, root, result, visited) && Expanded(processes, result, queue, visited)
    && result != [] && result[0].pid == root
  }

  /** One more process is expanded, and the walk comes to an end: there are only so many pids. */
  lemma WalkOn(processes: seq<Process>, root: int, result: seq<Process>, queue: seq<Process>, visited: set<int>, pushed: seq<Process>)
    requires Walk(processes, root, result, queue, visited) && queue != []
    requires New(ChildrenOf(processes, queue[0].pid), visited, pushed)
    requires forall p :: p in ChildrenOf(processes, queue[0].pid) ==> p.pid in visited + Pids(pushed)
    ensures Walk(processes, root, result + pushed, queue[1..] + pushed, visited + Pids(pushed))
    ensures |result| <= |Pids(processes)|
  {
    var n := |result| - |queue|;
    assert queue[0] == result[n] && queue[1..] == result[n + 1..];
    NewAreFound(processes, root, result, visited, queue[0], pushed);
    StillExpanded(processes, result, queue[1..], visited, result + pushed, queue[1..] + pushed, visited + Pids(pushed), pushed);
    OnlySoMany(processes, result);
  }

  lemma OnlySoMany(processes: seq<Process>, result: seq<Process>)
    requires EachOnce(result) && forall p :: p in result ==> p in processes
    ensures |result| <= |Pids(processes)|
  {
    PidsCount(result);
    SmallerSet(Pids(result), Pids(processes));
  }

  lemma StillExpanded(processes: seq<Process>, result0: seq<Process>, queue0: seq<Process>, visited0: set<int>,
                      result: seq<Process>, queue: seq<Process>, visited: set<int>, pushed: seq<Process>)
    requires |queue0| < |result0| && queue0 == result0[|result0| - |queue0|..]
    requires forall i, pid :: 0 <= i < |result0| - |queue0| - 1 && IsChild(processes, result0[i].pid, pid) ==> pid in visited0
    requires result == result0 + pushed && queue == queue0 + pushed && visited0 <= visited
    requires forall p :: p in ChildrenOf(processes, result0[|result0| - |queue0| - 1].pid) ==> p.pid in visited
    ensures Expanded(processes, result, queue, visited)
  {
    var n := |result0| - |queue0|;
    assert queue == result[n..];
    forall i, pid | 0 <= i < n && IsChild(processes, result[i].pid, pid) ensures pid in visited {
      assert result[i] == result0[i];
      if i == n - 1 { ChildrenAreChildren(processes, result0[i].pid, pid); }
    }
  }

  lemma WalkIsWhole(processes: seq<Process>, root: int, result: seq<Process>, visited: set<int>)
    requires Found(processes, root, result, visited) && root in visited
    requires forall i, pid :: 0 <= i < |result| && IsChild(processes, result[i].pid, pid) ==> pid in visited
    ensures forall pid :: pid in Pids(result) <==> Below(processes, root, pid)
  {
    forall pid | Below(processes, root, pid) ensures pid in visited {
      ClosedHoldsBelow(processes, root, pid, visited);
    }
  }
}

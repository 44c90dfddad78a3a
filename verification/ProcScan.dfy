/** Collapsing matched processes to the one the user launched
    (internal/procscan/procscan.go:98-120 and 248-283). */
module ProcScan {
  import opened Wrappers

  /** The name of a matched tool; a process without one is not matched. */
  type Tool = s: string | s != "" witness "codex"

  type Pid = nat

  /** How many parents a walk looks at. */
  const DEPTH: nat := 128

  /** The parent a walk would move to: known, and above init. */
  function Parent(ppids: map<Pid, Pid>, pid: Pid): Option<Pid> {
    if pid in ppids && ppids[pid] > 1 then Some(ppids[pid]) else None
  }

  /** The `k`-th ancestor of a process; itself for 0. */
  function Ancestor(ppids: map<Pid, Pid>, pid: Pid, k: nat): Option<Pid> {
    if k == 0 then Some(pid)
    else match Ancestor(ppids, pid, k - 1)
      case None => None
      case Some(p) => Parent(ppids, p)
  }

  predicate Is(matched: map<Pid, Tool>, pid: Pid, tool: Tool) { pid in matched && matched[pid] == tool }

  /** Some proper ancestor matched the same tool, at any distance. */
  ghost predicate UnderTool(ppids: map<Pid, Pid>, matched: map<Pid, Tool>, pid: Pid, tool: Tool) {
    exists k :: k >= 1 && Ancestor(ppids, pid, k).Some? && Is(matched, Ancestor(ppids, pid, k).value, tool)
  }

  /** Some proper ancestor is one of the roots, at any distance. */
  ghost predicate UnderRoots(ppids: map<Pid, Pid>, roots: set<Pid>, pid: Pid) {
    exists k :: k >= 1 && Ancestor(ppids, pid, k).Some? && Ancestor(ppids, pid, k).value in roots
  }

  // ---------------------------------------------------------------- walks

  ghost predicate UnderToolWithin(ppids: map<Pid, Pid>, matched: map<Pid, Tool>, pid: Pid, tool: Tool, n: nat) {
    exists k :: 1 <= k <= n && Ancestor(ppids, pid, k).Some? && Is(matched, Ancestor(ppids, pid, k).value, tool)
  }

  ghost predicate UnderRootsWithin(ppids: map<Pid, Pid>, roots: set<Pid>, pid: Pid, n: nat) {
    exists k :: 1 <= k <= n && Ancestor(ppids, pid, k).Some? && Ancestor(ppids, pid, k).value in roots
  }

  method HasMatchedAncestor(pid0: Pid, tool: Tool, matched: map<Pid, Tool>, ppids: map<Pid, Pid>) returns (r: bool)
    ensures r <==> UnderToolWithin(ppids, matched, pid0, tool, 128)
  {
    var pid := pid0;
    for depth := 0 to DEPTH
      invariant Ancestor(ppids, pid0, depth) == Some(pid)
      invariant !UnderToolWithin(ppids, matched, pid0, tool, depth)
    {
      if pid !in ppids || ppids[pid] <= 1 {
        NoneAbove(ppids, pid0, depth + 1);
        return false;
      }
      var ppid := ppids[pid];
      assert Ancestor(ppids, pid0, depth + 1) == Some(ppid);
      if ppid in matched && matched[ppid] == tool {
        return true;
      }
      pid := ppid;
    }
    return false;
  }

  method IsDescendant(pid0: Pid, roots: set<Pid>, ppids: map<Pid, Pid>) returns (r: bool)
    ensures r <==> UnderRootsWithin(ppids, roots, pid0, 128)
  {
    if |roots| == 0 { return false; }
    var pid := pid0;
    for depth := 0 to DEPTH
      invariant Ancestor(ppids, pid0, depth) == Some(pid)
      invariant !UnderRootsWithin(ppids, roots, pid0, depth)
    {
      if pid !in ppids || ppids[pid] <= 1 {
        NoneAbove(ppids, pid0, depth + 1);
        return false;
      }
      var ppid := ppids[pid];
      assert Ancestor(ppids, pid0, depth + 1) == Some(ppid);
      if ppid in roots {
        return true;
      }
      pid := ppid;
    }
    return false;
  }

  /** Once a walk has ended it stays ended. */
  lemma {:induction false} NoneStays(ppids: map<Pid, Pid>, pid: Pid, k: nat, n: nat)
    requires Ancestor(ppids, pid, k) == None && k <= n
    ensures Ancestor(ppids, pid, n) == None
    decreases n
  {
    if k < n { NoneStays(ppids, pid, k, n - 1); }
  }

  lemma NoneAbove(ppids: map<Pid, Pid>, pid: Pid, k: nat)
    requires Ancestor(ppids, pid, k) == None
    ensures forall n :: n >= k ==> Ancestor(ppids, pid, n) == None
  {
    forall n | n >= k ensures Ancestor(ppids, pid, n) == None { NoneStays(ppids, pid, k, n); }
  }

  // ----------------------------------------------------------- candidates

  ghost predicate Candidate(ppids: map<Pid, Pid>, matched: map<Pid, Tool>, roots: set<Pid>, pid: Pid) {
    && pid in matched
    && !UnderRootsWithin(ppids, roots, pid, DEPTH)
    && !UnderToolWithin(ppids, matched, pid, matched[pid], DEPTH)
  }

  ghost predicate Collected(
    ppids: map<Pid, Pid>, matched: map<Pid, Tool>, roots: set<Pid>, todo: set<Pid>, found: seq<Pid>)
  {
    forall pid :: pid in found <==> pid !in todo && Candidate(ppids, matched, roots, pid)
  }

  /** The filtering loop of Scan, over the matched processes in any order. */
  method Candidates(matched: map<Pid, Tool>, roots: set<Pid>, ppids: map<Pid, Pid>) returns (candidates: seq<Pid>)
    ensures forall pid :: pid in candidates <==> Candidate(ppids, matched, roots, pid)
    ensures forall i, j :: 0 <= i < j < |candidates| ==> candidates[i] != candidates[j]
  {
    candidates := [];
    var todo: set<Pid> := matched.Keys;
    while todo != {}
      invariant todo <= matched.Keys
      invariant Collected(ppids, matched, roots, todo, candidates)
      invariant forall i, j :: 0 <= i < j < |candidates| ==> candidates[i] != candidates[j]
      decreases |todo|
    {
      var pid :| pid in todo;
      todo := todo - {pid};
      var managed := IsDescendant(pid, roots, ppids);
      if !managed {
        var child := HasMatchedAncestor(pid, matched[pid], matched, ppids);
        if !child {
          candidates := candidates + [pid];
        }
      }
    }
  }

  // ------------------------------------------------------------- theorems

  /** When the chain of `pid` ends within the walk limit, the bounded walks from
      `pid` decide true reachability; the rest of the table does not matter. */
  lemma WalksDecide(ppids: map<Pid, Pid>, matched: map<Pid, Tool>, roots: set<Pid>, pid: Pid, tool: Tool)
    requires Ancestor(ppids, pid, DEPTH + 1) == None
    ensures UnderToolWithin(ppids, matched, pid, tool, DEPTH) <==> UnderTool(ppids, matched, pid, tool)
    ensures UnderRootsWithin(ppids, roots, pid, DEPTH) <==> UnderRoots(ppids, roots, pid)
  {
    NoneAbove(ppids, pid, DEPTH + 1);
  }

  /** Init is nobody's ancestor: a match whose parent is init, or unknown, is a
      candidate, even where process 1 itself matched or is excluded. */
  lemma TopOfTreeIsCandidate(ppids: map<Pid, Pid>, matched: map<Pid, Tool>, roots: set<Pid>, pid: Pid)
    requires pid in matched && (pid !in ppids || ppids[pid] == 0 || ppids[pid] == 1)
    ensures Candidate(ppids, matched, roots, pid)
  {
    assert Ancestor(ppids, pid, 0) == Some(pid) && Ancestor(ppids, pid, 1) == None;
    NoneAbove(ppids, pid, 1);
  }

  /** A match started by another match of its tool, or by an excluded process, is not. */
  lemma ChildIsHidden(ppids: map<Pid, Pid>, matched: map<Pid, Tool>, roots: set<Pid>, pid: Pid)
    requires pid in matched && pid in ppids && ppids[pid] >= 2
    requires ppids[pid] in roots || (ppids[pid] in matched && matched[ppids[pid]] == matched[pid])
    ensures !Candidate(ppids, matched, roots, pid)
  {
    assert Ancestor(ppids, pid, 0) == Some(pid) && Ancestor(ppids, pid, 1) == Some(ppids[pid]);
  }

  /** No candidate is under another match of its tool, at any distance. */
  lemma CandidatesDoNotNest(ppids: map<Pid, Pid>, matched: map<Pid, Tool>, roots: set<Pid>, c: Pid)
    requires Ancestor(ppids, c, DEPTH + 1) == None && Candidate(ppids, matched, roots, c)
    ensures !UnderTool(ppids, matched, c, matched[c]) && !UnderRoots(ppids, roots, c)
  {
    WalksDecide(ppids, matched, roots, c, matched[c]);
  }

  lemma {:induction false} AncestorAdds(ppids: map<Pid, Pid>, pid: Pid, j: nat, k: nat)
    requires Ancestor(ppids, pid, j).Some?
    ensures Ancestor(ppids, pid, j + k) == Ancestor(ppids, Ancestor(ppids, pid, j).value, k)
  {
    if k > 0 { AncestorAdds(ppids, pid, j, k - 1); }
  }

  /** The `k`-th ancestor of `pid` exists and matched `tool`. */
  predicate ToolAt(ppids: map<Pid, Pid>, matched: map<Pid, Tool>, pid: Pid, tool: Tool, k: nat) {
    Ancestor(ppids, pid, k).Some? && Is(matched, Ancestor(ppids, pid, k).value, tool)
  }

  /** The topmost match of a tool on the walk from `pid`. */
  lemma {:induction false} Topmost(ppids: map<Pid, Pid>, matched: map<Pid, Tool>, pid: Pid, tool: Tool, n: nat)
    returns (top: nat)
    requires ToolAt(ppids, matched, pid, tool, 0)
    ensures top <= n && ToolAt(ppids, matched, pid, tool, top)
    ensures forall k :: top < k <= n ==> !ToolAt(ppids, matched, pid, tool, k)
  {
    if n == 0 {
      top := 0;
    } else if ToolAt(ppids, matched, pid, tool, n) {
      top := n;
    } else {
      top := Topmost(ppids, matched, pid, tool, n - 1);
    }
  }

  /** `c` is `pid` or an ancestor of it, matched `tool`, and is a candidate. */
  ghost predicate Represents(
    ppids: map<Pid, Pid>, matched: map<Pid, Tool>, roots: set<Pid>, pid: Pid, tool: Tool, c: Pid)
  {
    && (exists k :: k >= 0 && Ancestor(ppids, pid, k) == Some(c))
    && Is(matched, c, tool) && Candidate(ppids, matched, roots, c)
  }

  /** The collapse is exact for `pid`: one representative, and no other. */
  ghost predicate HasOne(ppids: map<Pid, Pid>, matched: map<Pid, Tool>, roots: set<Pid>, pid: Pid)
    requires pid in matched
  {
    && (exists c :: Represents(ppids, matched, roots, pid, matched[pid], c))
    && (forall c, d | Represents(ppids, matched, roots, pid, matched[pid], c)
                      && Represents(ppids, matched, roots, pid, matched[pid], d) :: c == d)
  }

  /** Nothing that matched lies beyond the walk limit on the chain of `pid`. */
  ghost predicate WithinReach(ppids: map<Pid, Pid>, matched: map<Pid, Tool>, pid: Pid) {
    forall k {:trigger Ancestor(ppids, pid, k)} :: k > DEPTH && Ancestor(ppids, pid, k).Some? ==>
      Ancestor(ppids, pid, k).value !in matched
  }

  lemma TopIsCandidate(ppids: map<Pid, Pid>, matched: map<Pid, Tool>, roots: set<Pid>, pid: Pid, tool: Tool, top: nat)
    requires WithinReach(ppids, matched, pid) && !UnderRoots(ppids, roots, pid)
    requires ToolAt(ppids, matched, pid, tool, top)
    requires forall k :: top < k <= DEPTH ==> !ToolAt(ppids, matched, pid, tool, k)
    ensures Candidate(ppids, matched, roots, Ancestor(ppids, pid, top).value)
  {
    var c := Ancestor(ppids, pid, top).value;
    forall k | 1 <= k <= DEPTH && Ancestor(ppids, c, k).Some?
      ensures Ancestor(ppids, c, k).value !in roots && !Is(matched, Ancestor(ppids, c, k).value, tool)
    {
      AncestorAdds(ppids, pid, top, k);
      assert !ToolAt(ppids, matched, pid, tool, top + k);
    }
  }

  lemma OneOnTheWalk(
    ppids: map<Pid, Pid>, matched: map<Pid, Tool>, roots: set<Pid>, pid: Pid, tool: Tool, j: nat, k: nat)
    requires j < k <= DEPTH
    requires ToolAt(ppids, matched, pid, tool, j) && ToolAt(ppids, matched, pid, tool, k)
    ensures !Candidate(ppids, matched, roots, Ancestor(ppids, pid, j).value)
  {
    var c := Ancestor(ppids, pid, j).value;
    AncestorAdds(ppids, pid, j, k - j);
    assert 1 <= k - j <= DEPTH && Ancestor(ppids, c, k - j).Some?;
  }

  /** A matched process under no excluded root, with no match beyond the walk
      limit on its chain, is represented by exactly one candidate of its tool
      among itself and its ancestors. */
  lemma ExactlyOneRepresentative(ppids: map<Pid, Pid>, matched: map<Pid, Tool>, roots: set<Pid>, pid: Pid)
    requires WithinReach(ppids, matched, pid) && pid in matched && !UnderRoots(ppids, roots, pid)
    ensures HasOne(ppids, matched, roots, pid)
  {
    var tool := matched[pid];
    assert Ancestor(ppids, pid, 0) == Some(pid);
    var top := Topmost(ppids, matched, pid, tool, DEPTH);
    var c := Ancestor(ppids, pid, top).value;
    TopIsCandidate(ppids, matched, roots, pid, tool, top);
    assert Represents(ppids, matched, roots, pid, tool, c);
    forall d: Pid | Represents(ppids, matched, roots, pid, tool, d) ensures d == c {
      var k :| k >= 0 && Ancestor(ppids, pid, k) == Some(d);
      assert ToolAt(ppids, matched, pid, tool, k);
      if k < top { OneOnTheWalk(ppids, matched, roots, pid, tool, k, top); }
    }
  }

  // ------------------------------------------ exactly when it is exact

  /** A chain that meets a process twice goes round forever. */
  lemma {:induction false} LoopNeverEnds(ppids: map<Pid, Pid>, pid: Pid, i: nat, j: nat, n: nat)
    requires i < j && Ancestor(ppids, pid, i).Some? && Ancestor(ppids, pid, i) == Ancestor(ppids, pid, j)
    ensures Ancestor(ppids, pid, n).Some?
    decreases n
  {
    if Ancestor(ppids, pid, n) == None {
      if n <= j {
        NoneStays(ppids, pid, n, j);
      } else {
        AncestorAdds(ppids, pid, j, n - j);
        AncestorAdds(ppids, pid, i, n - j);
        LoopNeverEnds(ppids, pid, i, j, i + n - j);
      }
    }
  }

  /** On a chain that ends, a process and a match beyond the walk limit are both
      candidates when nothing else matched. */
  lemma TwoCandidates(ppids: map<Pid, Pid>, pid: Pid, far: Pid, end: nat, tool: Tool)
    requires Ancestor(ppids, pid, DEPTH + 1) == Some(far) && Ancestor(ppids, pid, end) == None
    ensures far != pid
    ensures var matched := map[pid := tool, far := tool]; !HasOne(ppids, matched, {}, pid)
  {
    var matched := map[pid := tool, far := tool];
    assert Ancestor(ppids, pid, 0) == Some(pid);
    forall i: nat, j: nat | i < j && Ancestor(ppids, pid, i).Some?
      ensures Ancestor(ppids, pid, i) != Ancestor(ppids, pid, j)
    {
      if Ancestor(ppids, pid, i) == Ancestor(ppids, pid, j) { LoopNeverEnds(ppids, pid, i, j, end); }
    }
    assert Candidate(ppids, matched, {}, pid) by {
      forall k | 1 <= k <= DEPTH && Ancestor(ppids, pid, k).Some?
        ensures Ancestor(ppids, pid, k).value !in matched
      {
        assert Ancestor(ppids, pid, 0) != Ancestor(ppids, pid, k);
        assert Ancestor(ppids, pid, k) != Ancestor(ppids, pid, DEPTH + 1);
      }
    }
    assert Candidate(ppids, matched, {}, far) by {
      forall k | 1 <= k <= DEPTH && Ancestor(ppids, far, k).Some?
        ensures Ancestor(ppids, far, k).value !in matched
      {
        AncestorAdds(ppids, pid, DEPTH + 1, k);
        assert Ancestor(ppids, pid, 0) != Ancestor(ppids, pid, DEPTH + 1 + k);
        assert Ancestor(ppids, pid, DEPTH + 1) != Ancestor(ppids, pid, DEPTH + 1 + k);
      }
    }
    assert Represents(ppids, matched, {}, pid, tool, pid) && Represents(ppids, matched, {}, pid, tool, far);
  }

  ghost predicate Endless(ppids: map<Pid, Pid>, pid: Pid) {
    forall k: nat :: Ancestor(ppids, pid, k).Some?
  }

  /** On a chain that never ends nothing is a candidate when everything matched. */
  lemma NoCandidate(ppids: map<Pid, Pid>, pid: Pid, tool: Tool)
    requires Endless(ppids, pid)
    ensures pid in ppids
    ensures !HasOne(ppids, map q | q in ppids :: tool, {}, pid)
  {
    var matched: map<Pid, Tool> := map q | q in ppids :: tool;
    assert Ancestor(ppids, pid, 0) == Some(pid) && Ancestor(ppids, pid, 1).Some?;
    forall k: nat ensures !Candidate(ppids, matched, {}, Ancestor(ppids, pid, k).value) {
      var c := Ancestor(ppids, pid, k).value;
      AncestorAdds(ppids, pid, k, 1);
      AncestorAdds(ppids, pid, k, 2);
      assert Ancestor(ppids, pid, k + 1).Some? && Ancestor(ppids, pid, k + 2).Some?;
      assert Ancestor(ppids, c, 1).Some? && Ancestor(ppids, c, 1).value in matched;
    }
  }

  /** Whatever matched and whatever is excluded, the collapse is exact for `pid`. */
  ghost predicate AlwaysOne(ppids: map<Pid, Pid>, pid: Pid) {
    forall matched: map<Pid, Tool>, roots: set<Pid> {:trigger HasOne(ppids, matched, roots, pid)} ::
      pid in matched && !UnderRoots(ppids, roots, pid) ==> HasOne(ppids, matched, roots, pid)
  }

  /** The same for what one snapshot can yield: only listed processes match. */
  ghost predicate AlwaysOneListed(ppids: map<Pid, Pid>, pid: Pid) {
    forall matched: map<Pid, Tool>, roots: set<Pid> {:trigger HasOne(ppids, matched, roots, pid)} ::
      pid in matched && matched.Keys <= ppids.Keys && !UnderRoots(ppids, roots, pid) ==>
        HasOne(ppids, matched, roots, pid)
  }

  /** A 129th ancestor that may match breaks the collapse for `pid`. */
  lemma FarAncestorBreaks(ppids: map<Pid, Pid>, pid: Pid) returns (matched: map<Pid, Tool>)
    requires Ancestor(ppids, pid, DEPTH + 1).Some?
    ensures pid in matched && matched.Keys <= ppids.Keys + {Ancestor(ppids, pid, DEPTH + 1).value}
    ensures !UnderRoots(ppids, {}, pid) && !HasOne(ppids, matched, {}, pid)
  {
    assert Ancestor(ppids, pid, 0) == Some(pid);
    if Ancestor(ppids, pid, 1) == None { NoneStays(ppids, pid, 1, DEPTH + 1); }
    var tool: Tool := "codex";
    if Endless(ppids, pid) {
      NoCandidate(ppids, pid, tool);
      matched := map q | q in ppids :: tool;
    } else {
      var end: nat :| Ancestor(ppids, pid, end) == None;
      var far := Ancestor(ppids, pid, DEPTH + 1).value;
      TwoCandidates(ppids, pid, far, end, tool);
      matched := map[pid := tool, far := tool];
    }
  }

  /** Exactly one representative, for everything that may match and everything
      that may be excluded, if and only if the chain of `pid` has at most 128
      ancestors. */
  lemma ExactlyOneIff(ppids: map<Pid, Pid>, pid: Pid)
    ensures AlwaysOne(ppids, pid) <==> Ancestor(ppids, pid, 129) == None
  {
    if Ancestor(ppids, pid, DEPTH + 1) == None {
      NoneAbove(ppids, pid, DEPTH + 1);
      forall matched: map<Pid, Tool>, roots: set<Pid> | pid in matched && !UnderRoots(ppids, roots, pid)
        ensures HasOne(ppids, matched, roots, pid)
      {
        ExactlyOneRepresentative(ppids, matched, roots, pid);
      }
    } else {
      var matched := FarAncestorBreaks(ppids, pid);
      assert pid in matched && !HasOne(ppids, matched, {}, pid);
    }
  }

  /** In a snapshot only listed processes match, so there the 129th ancestor
      must also be listed for the collapse to fail. */
  lemma ExactlyOneListedIff(ppids: map<Pid, Pid>, pid: Pid)
    requires pid in ppids
    ensures AlwaysOneListed(ppids, pid) <==>
            Ancestor(ppids, pid, 129) == None || Ancestor(ppids, pid, 129).value !in ppids
  {
    if Ancestor(ppids, pid, DEPTH + 1).Some? && Ancestor(ppids, pid, DEPTH + 1).value in ppids {
      var matched := FarAncestorBreaks(ppids, pid);
      assert matched.Keys <= ppids.Keys && !HasOne(ppids, matched, {}, pid);
    } else {
      NoneAbove(ppids, pid, DEPTH + 2);
      forall matched: map<Pid, Tool>, roots: set<Pid>
        | pid in matched && matched.Keys <= ppids.Keys && !UnderRoots(ppids, roots, pid)
        ensures HasOne(ppids, matched, roots, pid)
      {
        ExactlyOneRepresentative(ppids, matched, roots, pid);
      }
    }
  }

  // -------------------------------------------- the two ways it goes wrong

  /** A snapshot with a parent cycle: two matches of one tool, no candidate. */
  lemma CycleHasNoRepresentative(tool: Tool)
    ensures var ppids, matched := map[2 := 3, 3 := 2], map[2 := tool, 3 := tool];
            !Candidate(ppids, matched, {}, 2) && !Candidate(ppids, matched, {}, 3)
  {
    var ppids, matched := map[2 := 3, 3 := 2], map[2 := tool, 3 := tool];
    assert Ancestor(ppids, 2, 0) == Some(2) && Ancestor(ppids, 3, 0) == Some(3);
    assert Ancestor(ppids, 2, 1) == Some(3) && Ancestor(ppids, 3, 1) == Some(2);
  }

  /** Processes 2 to n + 1, each the child of the next. */
  function Chain(n: nat): (c: map<Pid, Pid>)
    ensures forall pid :: pid in c <==> 2 <= pid < 2 + n
    ensures forall pid :: pid in c ==> c[pid] == pid + 1
  {
    if n == 0 then map[] else Chain(n - 1)[n + 1 := n + 2]
  }

  lemma {:induction false} ChainAncestor(n: nat, k: nat)
    requires k <= n
    ensures Ancestor(Chain(n), 2, k) == Some(2 + k)
  {
    if k > 0 { ChainAncestor(n, k - 1); }
  }

  /** A chain one longer than the walk: shim and binary are both candidates. */
  lemma DeepChainHasTwo(tool: Tool)
    ensures var n := 129;
            var matched := map[2 := tool, 2 + n := tool];
            Represents(Chain(n), matched, {}, 2, tool, 2) && Represents(Chain(n), matched, {}, 2, tool, 2 + n)
  {
    var n := DEPTH + 1;
    BottomIsCandidate(n, tool);
    TopOfChain(n, tool);
    ChainAncestor(n, 0);
    ChainAncestor(n, n);
  }

  lemma BottomIsCandidate(n: nat, tool: Tool)
    requires n > DEPTH
    ensures Candidate(Chain(n), map[2 := tool, 2 + n := tool], {}, 2)
  {
    var ppids := Chain(n);
    forall k | 1 <= k <= DEPTH ensures Ancestor(ppids, 2, k) == Some(2 + k) { ChainAncestor(n, k); }
    hide Chain, Ancestor;
  }

  lemma TopOfChain(n: nat, tool: Tool)
    ensures Candidate(Chain(n), map[2 := tool, 2 + n := tool], {}, 2 + n)
  {
    var ppids := Chain(n);
    assert Ancestor(ppids, 2 + n, 0) == Some(2 + n) && Ancestor(ppids, 2 + n, 1) == None;
    NoneAbove(ppids, 2 + n, 1);
    hide Chain, Ancestor;
  }
}

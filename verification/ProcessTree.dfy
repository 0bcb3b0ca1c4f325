/**
 The search for the processes below a root
 (benchmarks/worktree_runner.py: `_descendant_pids`).

 The table was read process by process while processes came and went, so nothing
 says that its parent links form a tree. The loop keeps no set of the processes
 it has looked at.
 */
module ProcessTree {
  import opened Options

  type Pid = nat
  datatype Entry = Entry(parent: Pid, start: nat)
  type Table = map<Pid, Entry>

  /** The table's processes in the order the dictionary gives them. */
  ghost predicate Lists(order: seq<Pid>, table: Table) {
    (forall p :: p in order <==> p in table) && Distinct(order)
  }

  ghost predicate Distinct(ps: seq<Pid>) {
    forall i, j :: 0 <= i < j < |ps| ==> ps[i] != ps[j]
  }

  // ----- what is asked for -----

  /** The parent's parent's ... parent, `n` links up. */
  ghost function Above(table: Table, p: Pid, n: nat): Option<Pid>
    decreases n
  {
    if n == 0 then Some(p)
    else if p !in table then None
    else Above(table, table[p].parent, n - 1)
  }

  ghost predicate Below(table: Table, root: Pid, p: Pid) {
    exists n: nat :: n > 0 && Above(table, p, n) == Some(root)
  }

  lemma ChildIsBelow(table: Table, root: Pid, p: Pid)
    requires p in table
    ensures Below(table, root, p) <==> table[p].parent == root || Below(table, root, table[p].parent)
  {
    var q := table[p].parent;
    if q == root {
      assert Above(table, p, 1) == Above(table, q, 0);
    } else if Below(table, root, q) {
      var n: nat :| n > 0 && Above(table, q, n) == Some(root);
      assert Above(table, p, n + 1) == Some(root);
    }
    assert forall n: nat :: n > 0 ==> Above(table, p, n) == Above(table, q, n - 1);
  }

  // ----- the loop -----

  function Children(table: Table, order: seq<Pid>, p: Pid): seq<Pid> {
    if order == [] then []
    else (if order[0] in table && table[order[0]].parent == p then [order[0]] else []) + Children(table, order[1..], p)
  }

  lemma {:induction false} ChildrenAre(table: Table, order: seq<Pid>, p: Pid)
    ensures forall c :: c in Children(table, order, p) <==> c in order && c in table && table[c].parent == p
  {
    if order != [] { ChildrenAre(table, order[1..], p); }
  }

  datatype Search = Search(found: map<Pid, nat>, pending: seq<Pid>)

  function Note(table: Table, found: map<Pid, nat>, children: seq<Pid>): map<Pid, nat>
    requires forall c :: c in children ==> c in table
  {
    found + map c | c in children :: table[c].start
  }

  /** One turn of the `while` loop. */
  function Turn(table: Table, order: seq<Pid>, s: Search): Search
    requires s.pending != []
  {
    var last := |s.pending| - 1;
    var children := Children(table, order, s.pending[last]);
    ChildrenAre(table, order, s.pending[last]);
    Search(Note(table, s.found, children), s.pending[..last] + children)
  }

  /** Nothing is pending twice; what is found is below the root, and the found
      processes are exactly the children of those already looked at. */
  ghost predicate Kept(table: Table, root: Pid, s: Search) {
    Waiting(root, s) && Right(table, root, s) && Explored(table, root, s)
  }

  ghost predicate Waiting(root: Pid, s: Search) {
    Distinct(s.pending) && forall p :: p in s.pending ==> p == root || p in s.found
  }

  ghost predicate Right(table: Table, root: Pid, s: Search) {
    forall p :: p in s.found ==> p in table && s.found[p] == table[p].start && Below(table, root, p)
  }

  ghost predicate Explored(table: Table, root: Pid, s: Search) {
    forall p :: p in table ==> (p in s.found <==> LookedAt(root, s, table[p].parent))
  }

  ghost predicate LookedAt(root: Pid, s: Search, p: Pid) {
    (p == root || p in s.found) && p !in s.pending
  }

  lemma {:induction false} ChildrenAreDistinct(table: Table, order: seq<Pid>, p: Pid)
    requires Distinct(order)
    ensures Distinct(Children(table, order, p))
  {
    if order != [] {
      ChildrenAreDistinct(table, order[1..], p);
      ChildrenAre(table, order[1..], p);
    }
  }

  /** The children of the process taken are all new. */
  lemma NewChild(table: Table, root: Pid, s: Search, p: Pid, c: Pid)
    requires Kept(table, root, s) && p in s.pending && !Below(table, root, root)
    requires c in table && table[c].parent == p
    ensures c !in s.found && c != p && c != root && c !in s.pending && Below(table, root, c)
  {
    ChildIsBelow(table, root, c);
    if p == root { assert c != root; }
  }

  lemma TurnKeeps(table: Table, order: seq<Pid>, root: Pid, s: Search)
    requires Lists(order, table) && Kept(table, root, s) && s.pending != [] && !Below(table, root, root)
    ensures Kept(table, root, Turn(table, order, s))
  {
    var last := |s.pending| - 1;
    var p, rest := s.pending[last], s.pending[..last];
    var children := Children(table, order, p);
    ChildrenAre(table, order, p);
    ChildrenAreDistinct(table, order, p);
    forall c | c in children ensures c !in s.found && c != p && c != root && c !in s.pending && Below(table, root, c) {
      NewChild(table, root, s, p, c);
    }
    TakenOnce(table, root, s, children, Turn(table, order, s));
  }

  lemma JoinIsDistinct(a: seq<Pid>, b: seq<Pid>)
    requires Distinct(a) && Distinct(b) && forall p :: p in b ==> p !in a
    ensures Distinct(a + b)
  {
    forall i, j | 0 <= i < j < |a + b| ensures (a + b)[i] != (a + b)[j] {
      if i < |a| <= j { assert a[i] in a && b[j - |a|] in b; }
    }
  }

  lemma TakenOnce(table: Table, root: Pid, s: Search, children: seq<Pid>, t: Search)
    requires Kept(table, root, s) && s.pending != [] && Distinct(children)
    requires var last := |s.pending| - 1;
             forall c :: c in children <==> c in table && table[c].parent == s.pending[last]
    requires forall c :: c in children ==> c !in s.found && c != root && c !in s.pending && Below(table, root, c)
    requires t.pending == s.pending[..|s.pending| - 1] + children
    requires forall c :: c in t.found <==> c in s.found || c in children
    requires forall c :: c in t.found ==> t.found[c] == if c in children then table[c].start else s.found[c]
    ensures Kept(table, root, t)
  {
    var last := |s.pending| - 1;
    var p, rest := s.pending[last], s.pending[..last];
    assert s.pending == rest + [p];
    assert forall q :: q in t.pending <==> q in rest || q in children;
    assert p !in rest;
    JoinIsDistinct(rest, children);
    assert Waiting(root, t);
    assert Right(table, root, t);
    forall q | q in table ensures q in t.found <==> LookedAt(root, t, table[q].parent) {
      var r := table[q].parent;
      assert q in children <==> r == p;
      assert LookedAt(root, t, r) <==> LookedAt(root, s, r) || r == p;
    }
  }

  /** The measure: processes not found yet, then those pending. */
  ghost function Unfound(table: Table, s: Search): nat {
    |table.Keys - s.found.Keys|
  }

  lemma TurnShrinks(table: Table, order: seq<Pid>, root: Pid, s: Search)
    requires Lists(order, table) && Kept(table, root, s) && s.pending != [] && !Below(table, root, root)
    ensures var t := Turn(table, order, s);
            Unfound(table, t) < Unfound(table, s)
            || (Unfound(table, t) == Unfound(table, s) && |t.pending| < |s.pending|)
  {
    var p := s.pending[|s.pending| - 1];
    var children, t := Children(table, order, p), Turn(table, order, s);
    ChildrenAre(table, order, p);
    if children == [] {
      assert t.found.Keys == s.found.Keys;
    } else {
      var c := children[0];
      NewChild(table, root, s, p, c);
      FewerLeft(table.Keys, s.found.Keys, t.found.Keys, c);
    }
  }

  lemma FewerLeft(all: set<Pid>, before: set<Pid>, after: set<Pid>, c: Pid)
    requires before <= after && c in all && c !in before && c in after
    ensures |all - after| < |all - before|
  {
    SubsetIsSmaller(all - after, (all - before) - {c});
  }

  lemma {:induction false} SubsetIsSmaller(a: set<Pid>, b: set<Pid>)
    requires a <= b
    ensures |a| <= |b|
  {
    if a != {} {
      var x :| x in a;
      SubsetIsSmaller(a - {x}, b - {x});
    }
  }

  /** With nothing pending, everything below the root is found. */
  lemma {:induction false} FoundAll(table: Table, root: Pid, s: Search, p: Pid, n: nat)
    requires Kept(table, root, s) && s.pending == []
    requires n > 0 && Above(table, p, n) == Some(root)
    ensures p in s.found
    decreases n
  {
    var q := table[p].parent;
    if n > 1 { FoundAll(table, root, s, q, n - 1); }
    assert LookedAt(root, s, q);
  }

  ghost predicate Tree(table: Table, root: Pid, found: map<Pid, nat>) {
    forall p :: (p in found <==> Below(table, root, p)) && (p in found ==> p in table && found[p] == table[p].start)
  }

  lemma KeptIsTree(table: Table, root: Pid, s: Search)
    requires Kept(table, root, s) && s.pending == []
    ensures Tree(table, root, s.found)
  {
    forall p | Below(table, root, p) ensures p in s.found {
      var n: nat :| n > 0 && Above(table, p, n) == Some(root);
      FoundAll(table, root, s, p, n);
    }
  }

  function Begin(root: Pid): Search {
    Search(map[], [root])
  }

  lemma BeginIsKept(table: Table, root: Pid)
    ensures Kept(table, root, Begin(root))
  {
  }

  predicate Maps(table: Table, order: seq<Pid>, children: map<Pid, seq<Pid>>, p: Pid) {
    (if p in children then children[p] else []) == Children(table, order, p)
  }

  method ChildLists(table: Table, order: seq<Pid>) returns (children: map<Pid, seq<Pid>>)
    requires Lists(order, table)
    ensures forall p: Pid :: Maps(table, order, children, p)
  {
    children := map[];
    for i := 0 to |order|
      invariant forall p: Pid :: Maps(table, order[..i], children, p)
    {
      var pid := order[i];
      assert pid in order;
      var parent := table[pid].parent;
      var longer := (if parent in children then children[parent] else []) + [pid];
      ghost var before, done, more := children, order[..i], order[..i + 1];
      children := children[parent := longer];
      assert more == done + [pid];
      forall p: Pid ensures Maps(table, more, children, p) {
        MapsMore(table, done, before, pid, p);
      }
    }
    assert order[..|order|] == order;
  }

  lemma MapsMore(table: Table, order: seq<Pid>, children: map<Pid, seq<Pid>>, pid: Pid, p: Pid)
    requires pid in table && Maps(table, order, children, p)
    ensures var parent := table[pid].parent;
            var longer := (if parent in children then children[parent] else []) + [pid];
            Maps(table, order + [pid], children[parent := longer], p)
  {
    ChildrenOfMore(table, order, pid, p);
  }

  lemma {:induction false} ChildrenOfMore(table: Table, order: seq<Pid>, last: Pid, p: Pid)
    requires last in table
    ensures Children(table, order + [last], p)
            == Children(table, order, p) + if table[last].parent == p then [last] else []
  {
    if order == [] {
      assert [] + [last] == [last];
    } else {
      assert (order + [last])[1..] == order[1..] + [last];
      ChildrenOfMore(table, order[1..], last, p);
    }
  }

  lemma NoteMore(table: Table, found: map<Pid, nat>, children: seq<Pid>, c: Pid)
    requires c in table && forall p :: p in children ==> p in table
    ensures Note(table, found, children + [c]) == Note(table, found, children)[c := table[c].start]
  {
  }

  /** The inner loop: the children of the process taken. */
  method AddChildren(table: Table, mine: seq<Pid>, before: map<Pid, nat>, rest: seq<Pid>)
      returns (found: map<Pid, nat>, pending: seq<Pid>)
    requires forall c :: c in mine ==> c in table
    ensures found == Note(table, before, mine) && pending == rest + mine
  {
    found, pending := before, rest;
    for i := 0 to |mine|
      invariant found == Note(table, before, mine[..i]) && pending == rest + mine[..i]
    {
      assert mine[..i + 1] == mine[..i] + [mine[i]];
      NoteMore(table, before, mine[..i], mine[i]);
      found := found[mine[i] := table[mine[i]].start];
      pending := pending + [mine[i]];
    }
    assert mine[..|mine|] == mine;
  }

  /** What one turn does for the whole search, `taken` being the processes taken. */
  lemma OneTurn(table: Table, order: seq<Pid>, root: Pid, s: Search, t: Search, taken: seq<Pid>, p: Pid)
    requires Lists(order, table) && !Below(table, root, root)
    requires Kept(table, root, s) && s.pending != [] && t == Turn(table, order, s) && Taken(root, s, taken)
    requires p == s.pending[|s.pending| - 1]
    ensures Kept(table, root, t) && Taken(root, t, taken + [p])
  {
    TurnKeeps(table, order, root, s);
    TakesOne(table, order, root, s);
    JoinIsDistinct(taken, [p]);
  }

  ghost predicate Taken(root: Pid, s: Search, taken: seq<Pid>) {
    Distinct(taken) && forall p :: p in taken <==> LookedAt(root, s, p)
  }

  /** `_descendant_pids`, for a root that is not its own ancestor: every process
      below the root, with its start time, and no process is taken twice. */
  method DescendantPids(table: Table, order: seq<Pid>, root: Pid)
      returns (found: map<Pid, nat>, ghost taken: seq<Pid>)
    requires Lists(order, table) && !Below(table, root, root)
    ensures Tree(table, root, found)
    ensures Distinct(taken) && forall p :: p in taken <==> p == root || p in found
  {
    var children := ChildLists(table, order);
    found := map[];
    taken := [];
    var pending := [root];
    ghost var s := Begin(root);
    BeginIsKept(table, root);
    while pending != []
      invariant s == Search(found, pending) && Kept(table, root, s) && Taken(root, s, taken)
      decreases Unfound(table, s), |pending|
    {
      var p := pending[|pending| - 1];
      ChildrenAre(table, order, p);
      assert Maps(table, order, children, p);
      ghost var t := Turn(table, order, s);
      OneTurn(table, order, root, s, t, taken, p);
      TurnShrinks(table, order, root, s);
      found, pending := AddChildren(table, if p in children then children[p] else [], found, pending[..|pending| - 1]);
      taken := taken + [p];
      s := t;
    }
    KeptIsTree(table, root, s);
  }

  lemma TakesOne(table: Table, order: seq<Pid>, root: Pid, s: Search)
    requires Lists(order, table) && Kept(table, root, s) && s.pending != [] && !Below(table, root, root)
    ensures !LookedAt(root, s, s.pending[|s.pending| - 1])
    ensures forall q :: LookedAt(root, Turn(table, order, s), q) <==> LookedAt(root, s, q) || q == s.pending[|s.pending| - 1]
  {
    var last := |s.pending| - 1;
    var p, rest := s.pending[last], s.pending[..last];
    var children := Children(table, order, p);
    ChildrenAre(table, order, p);
    assert s.pending == rest + [p] && p !in rest;
    forall c | c in children ensures c !in s.found && c != p && c != root && c !in s.pending {
      NewChild(table, root, s, p, c);
    }
  }

  // ----- exactly when the loop ends -----

  function Turns(table: Table, order: seq<Pid>, s: Search, n: nat): Search
    decreases n
  {
    if n == 0 || s.pending == [] then s else Turns(table, order, Turn(table, order, s), n - 1)
  }

  ghost predicate Ends(table: Table, order: seq<Pid>, root: Pid) {
    exists n: nat :: Turns(table, order, Begin(root), n).pending == []
  }

  lemma TurnsMore(table: Table, order: seq<Pid>, s: Search, n: nat)
    requires s.pending != []
    ensures Turns(table, order, s, n + 1) == Turns(table, order, Turn(table, order, s), n)
  {
  }

  lemma {:induction false} EndsFrom(table: Table, order: seq<Pid>, root: Pid, s: Search, unfound: nat, pending: nat)
      returns (n: nat)
    requires Lists(order, table) && Kept(table, root, s) && !Below(table, root, root)
    requires unfound == Unfound(table, s) && pending == |s.pending|
    ensures Turns(table, order, s, n).pending == []
    decreases unfound, pending
  {
    if pending == 0 {
      n := 0;
    } else {
      TurnKeeps(table, order, root, s);
      TurnShrinks(table, order, root, s);
      var t := Turn(table, order, s);
      n := EndsFrom(table, order, root, t, Unfound(table, t), |t.pending|);
      TurnsMore(table, order, s, n);
      n := n + 1;
    }
  }

  /** On the way down from the root to the root. */
  ghost predicate OnCycle(table: Table, root: Pid, p: Pid) {
    (p == root || Below(table, root, p)) && Below(table, p, root)
  }

  /** The child of `p` on the way down to `q`. */
  lemma {:induction false} StepDown(table: Table, p: Pid, q: Pid, n: nat) returns (c: Pid)
    requires n > 0 && Above(table, q, n) == Some(p)
    ensures c in table && table[c].parent == p && (c == q || Below(table, c, q))
    decreases n
  {
    if n == 1 {
      c := q;
      assert Above(table, table[q].parent, 0) == Some(p);
    } else {
      c := StepDown(table, p, table[q].parent, n - 1);
      ChildIsBelow(table, c, q);
    }
  }

  lemma CycleGoesOn(table: Table, root: Pid, p: Pid) returns (c: Pid)
    requires OnCycle(table, root, p)
    ensures c in table && table[c].parent == p && OnCycle(table, root, c)
  {
    var n: nat :| n > 0 && Above(table, root, n) == Some(p);
    c := StepDown(table, p, root, n);
    ChildIsBelow(table, root, c);
  }

  lemma {:induction false} NeverEnds(table: Table, order: seq<Pid>, root: Pid, s: Search, n: nat, p: Pid)
    requires Lists(order, table) && p in s.pending && OnCycle(table, root, p)
    ensures Turns(table, order, s, n).pending != []
    decreases n
  {
    if n > 0 {
      var last := |s.pending| - 1;
      var top := s.pending[last];
      assert s.pending == s.pending[..last] + [top];
      ChildrenAre(table, order, top);
      var next := p;
      if p == top { next := CycleGoesOn(table, root, p); }
      NeverEnds(table, order, root, Turn(table, order, s), n - 1, next);
    }
  }

  /** The search ends exactly if the root is not its own ancestor. */
  lemma EndsIff(table: Table, order: seq<Pid>, root: Pid)
    requires Lists(order, table)
    ensures Ends(table, order, root) <==> !Below(table, root, root)
  {
    if Below(table, root, root) {
      forall n: nat ensures Turns(table, order, Begin(root), n).pending != [] {
        NeverEnds(table, order, root, Begin(root), n, root);
      }
    } else {
      BeginIsKept(table, root);
      var n := EndsFrom(table, order, root, Begin(root), Unfound(table, Begin(root)), 1);
    }
  }
}

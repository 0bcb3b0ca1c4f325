/**
 The migrations of a release (apps/backend/deploy/release/paw_release.py:
 `schema_head`, `Release.chain`, `Release.path_between`).
 */
module Migrations {
  import opened Options

  datatype Migration = Migration(revision: string, down: Option<string>, compatibility: Option<string>)

  /** Keyed by revision. */
  type Schema = map<string, Migration>

  // ----- accepting a schema -----

  function Heads(m: Schema): set<string> {
    set r | r in m && !exists k :: k in m && m[k].down == Some(r)
  }

  predicate Closed(m: Schema) {
    forall r :: r in m && m[r].down.Some? ==> m[r].down.value in m
  }

  ghost predicate Accepts(m: Schema, head: Option<string>) {
    && Closed(m)
    && Heads(m) == if head.None? then {} else {head.value}
  }

  datatype Refusal = SeveralHeads | UnknownRevision

  /** `schema_head`. */
  method SchemaHead(m: Schema) returns (r: Result<Option<string>, Refusal>)
    ensures r.Ok? <==> |Heads(m)| <= 1 && Closed(m)
    ensures r.Ok? ==> Accepts(m, r.value)
    ensures r == Err(SeveralHeads) <==> |Heads(m)| > 1
  {
    var heads := Heads(m);
    if |heads| > 1 {
      return Err(SeveralHeads);
    }
    var todo := m.Keys;
    while todo != {}
      invariant todo <= m.Keys
      invariant forall r :: r in m && r !in todo && m[r].down.Some? ==> m[r].down.value in m
      decreases |todo|
    {
      var k :| k in todo;
      todo := todo - {k};
      if m[k].down.Some? && m[k].down.value !in m {
        return Err(UnknownRevision);
      }
    }
    if heads == {} {
      return Ok(None);
    }
    var h :| h in heads;
    assert heads == {h} by { Singleton(heads, h); }
    return Ok(Some(h));
  }

  lemma Singleton(s: set<string>, x: string)
    requires x in s && |s| == 1
    ensures s == {x}
  {
    assert |s - {x}| == 0;
  }

  // ----- the loops -----

  /** The hypothesis `schema_head` does not check: revising leads downwards. */
  ghost predicate Ranks(m: Schema, rank: map<string, nat>) {
    forall r :: r in m ==>
      && r in rank
      && (m[r].down.Some? && m[r].down.value in m && m[r].down.value in rank ==> rank[m[r].down.value] < rank[r])
  }

  ghost function Level(m: Schema, rank: map<string, nat>, r: Option<string>): nat
    requires Ranks(m, rank)
  {
    if r.Some? && r.value in m then rank[r.value] + 1 else 0
  }

  ghost function Chain(m: Schema, rank: map<string, nat>, from: Option<string>): seq<string>
    requires Ranks(m, rank) && Closed(m)
    requires from.Some? ==> from.value in m
    decreases Level(m, rank, from)
  {
    if from.None? then [] else [from.value] + Chain(m, rank, m[from.value].down)
  }

  ghost function Path(m: Schema, rank: map<string, nat>, newer: Option<string>, older: Option<string>)
    : Option<seq<Migration>>
    requires Ranks(m, rank)
    decreases Level(m, rank, newer)
  {
    if newer == older then Some([])
    else if newer.None? || newer.value !in m then None
    else
      var below := Path(m, rank, m[newer.value].down, older);
      if below.None? then None else Some([m[newer.value]] + below.value)
  }

  /** `Release.chain`. */
  method BuildChain(m: Schema, head: Option<string>, ghost rank: map<string, nat>) returns (chain: seq<string>)
    requires Ranks(m, rank) && Accepts(m, head)
    ensures chain == Chain(m, rank, head)
  {
    HeadIsKnown(m, head);
    chain := [];
    var revision := head;
    while revision.Some?
      invariant revision.Some? ==> revision.value in m
      invariant chain + Chain(m, rank, revision) == Chain(m, rank, head)
      decreases Level(m, rank, revision)
    {
      chain := chain + [revision.value];
      revision := m[revision.value].down;
    }
  }

  lemma HeadIsKnown(m: Schema, head: Option<string>)
    requires Accepts(m, head)
    ensures head.Some? ==> head.value in m
  {
    assert head.Some? ==> head.value in Heads(m);
  }

  /** `Release.path_between`. */
  method PathBetween(m: Schema, newer: string, older: Option<string>, ghost rank: map<string, nat>)
    returns (r: Option<seq<Migration>>)
    requires Ranks(m, rank)
    ensures r == Path(m, rank, Some(newer), older)
  {
    var steps: seq<Migration> := [];
    var revision := Some(newer);
    assert forall p: seq<Migration> :: [] + p == p;
    while revision != older
      invariant var p := Path(m, rank, revision, older);
                Path(m, rank, Some(newer), older) == if p.None? then None else Some(steps + p.value)
      decreases Level(m, rank, revision), revision.Some?
    {
      if revision.None? || revision.value !in m {
        return None;
      }
      ghost var below := Path(m, rank, m[revision.value].down, older);
      assert below.Some? ==> steps + ([m[revision.value]] + below.value) == (steps + [m[revision.value]]) + below.value;
      steps := steps + [m[revision.value]];
      revision := m[revision.value].down;
    }
    assert steps + [] == steps;
    return Some(steps);
  }

  // ----- the chain is the whole schema -----

  ghost function At(c: seq<string>, i: nat): Option<string> {
    if i < |c| then Some(c[i]) else None
  }

  /** What the loop of `chain` produces if it ends. */
  ghost predicate IsChain(m: Schema, from: Option<string>, c: seq<string>) {
    && from == At(c, 0)
    && forall i :: 0 <= i < |c| ==> c[i] in m && m[c[i]].down == At(c, i + 1)
  }

  lemma {:induction false} ChainIsChain(m: Schema, rank: map<string, nat>, from: Option<string>)
    requires Ranks(m, rank) && Closed(m) && (from.Some? ==> from.value in m)
    ensures IsChain(m, from, Chain(m, rank, from))
    decreases Level(m, rank, from)
  {
    if from.Some? {
      var below := m[from.value].down;
      ChainIsChain(m, rank, below);
      var c, d := Chain(m, rank, from), Chain(m, rank, below);
      forall i | 0 <= i < |c| ensures c[i] in m && m[c[i]].down == At(c, i + 1) {
        if i > 0 { assert c[i] == d[i - 1] && At(c, i + 1) == At(d, i); }
      }
    }
  }

  /** A chain that ends never comes back to a revision. */
  lemma {:induction false} ChainIsDistinct(m: Schema, from: Option<string>, c: seq<string>, i: nat, j: nat)
    requires IsChain(m, from, c) && i < j < |c|
    ensures c[i] != c[j]
    decreases |c| - j
  {
    if c[i] == c[j] {
      assert At(c, i + 1) == m[c[i]].down == At(c, j + 1);
      ChainIsDistinct(m, from, c, i + 1, j + 1);
    }
  }

  /** Some member of a non-empty set has the largest rank. */
  lemma {:induction false} Highest(s: set<string>, rank: map<string, nat>) returns (x: string)
    requires s != {} && forall r :: r in s ==> r in rank
    ensures x in s && forall r :: r in s ==> rank[r] <= rank[x]
    decreases |s|
  {
    x :| x in s;
    if s != {x} {
      var y := Highest(s - {x}, rank);
      if rank[y] > rank[x] { x := y; }
    }
  }

  /** Everything is on the chain: follow what revises `r` up to the head. */
  lemma {:induction false} Covered(
      m: Schema, rank: map<string, nat>, top: nat, head: Option<string>, c: seq<string>, r: string)
    requires Ranks(m, rank) && Accepts(m, head) && IsChain(m, head, c) && r in m
    requires forall k :: k in m ==> rank[k] <= top
    ensures r in c
    decreases top - rank[r]
  {
    if r in Heads(m) {
      assert head == Some(r);
    } else {
      var k :| k in m && m[k].down == Some(r);
      Covered(m, rank, top, head, c, k);
      var i: nat :| i < |c| && c[i] == k;
      assert At(c, i + 1) == Some(r);
    }
  }

  lemma ChainCovers(m: Schema, rank: map<string, nat>, head: Option<string>, c: seq<string>)
    requires Ranks(m, rank) && Accepts(m, head) && IsChain(m, head, c)
    ensures forall r :: r in m ==> r in c
  {
    if m.Keys != {} {
      var x := Highest(m.Keys, rank);
      forall r | r in m ensures r in c { Covered(m, rank, rank[x], head, c, r); }
    }
  }

  /** `chain()` of an accepted, acyclic schema ends and lists every migration
      exactly once, each above the one it revises. */
  lemma ChainListsEverything(m: Schema, rank: map<string, nat>, head: Option<string>)
    requires Ranks(m, rank) && Accepts(m, head)
    ensures (head.Some? ==> head.value in m)
    ensures var c := Chain(m, rank, head);
            && IsChain(m, head, c)
            && (forall r :: r in m <==> r in c)
            && (forall i, j :: 0 <= i < j < |c| ==> c[i] != c[j])
  {
    HeadIsKnown(m, head);
    ChainIsChain(m, rank, head);
    var c := Chain(m, rank, head);
    ChainCovers(m, rank, head, c);
    forall i, j | 0 <= i < j < |c| ensures c[i] != c[j] { ChainIsDistinct(m, head, c, i, j); }
  }

  /** Acyclicity is exactly what is needed: among accepted schemas it holds if and
      only if the loop of `chain` ends having listed every migration. */
  lemma ChainEndsIffAcyclic(m: Schema, head: Option<string>)
    requires Accepts(m, head)
    ensures (exists rank :: Ranks(m, rank)) <==>
            exists c :: IsChain(m, head, c) && forall r :: r in m ==> r in c
  {
    if rank :| Ranks(m, rank) {
      ChainListsEverything(m, rank, head);
    }
    if c :| IsChain(m, head, c) && forall r :: r in m ==> r in c {
      var rank := RankFromChain(m, head, c);
    }
  }

  lemma RankFromChain(m: Schema, head: Option<string>, c: seq<string>) returns (rank: map<string, nat>)
    requires IsChain(m, head, c) && forall r :: r in m ==> r in c
    ensures Ranks(m, rank)
  {
    rank := map r | r in m :: |c| - 1 - Index(c, r);
    forall r | r in m && m[r].down.Some? && m[r].down.value in m
      ensures rank[m[r].down.value] < rank[r]
    {
      LowerIsLater(m, head, c, r, Index(c, r), Index(c, m[r].down.value));
    }
  }

  lemma LowerIsLater(m: Schema, head: Option<string>, c: seq<string>, r: string, i: nat, j: nat)
    requires IsChain(m, head, c) && i < |c| && j < |c| && c[i] == r && r in m && m[r].down == Some(c[j])
    ensures i < j
  {
    assert m[c[i]].down == At(c, i + 1);
    if j < i + 1 { ChainIsDistinct(m, head, c, j, i + 1); }
  }

  ghost function Index(c: seq<string>, r: string): (i: nat)
    requires r in c
    ensures i < |c| && c[i] == r
  {
    var i :| 0 <= i < |c| && c[i] == r; i
  }

  lemma NoBaseNoChain(m: Schema, from: string, c: seq<string>)
    requires forall r :: r in m ==> m[r].down.Some?
    ensures !IsChain(m, Some(from), c)
  {
    if c != [] && c[|c| - 1] in m {
      assert m[c[|c| - 1]].down != At(c, |c|);
    }
  }

  /** And `schema_head` does not establish it: two migrations that revise each
      other below the head are accepted, and the loop of `chain` never ends. */
  lemma CycleIsAccepted()
    ensures var m: Schema := map["h" := Migration("h", Some("a"), None),
                                 "a" := Migration("a", Some("b"), None),
                                 "b" := Migration("b", Some("a"), None)];
            Accepts(m, Some("h")) && !exists c :: IsChain(m, Some("h"), c)
  {
    var m: Schema := map["h" := Migration("h", Some("a"), None),
                         "a" := Migration("a", Some("b"), None),
                         "b" := Migration("b", Some("a"), None)];
    assert m["h"].down == Some("a") && m["a"].down == Some("b") && m["b"].down == Some("a");
    assert Heads(m) == {"h"};
    forall c ensures !IsChain(m, Some("h"), c) { NoBaseNoChain(m, "h", c); }
  }

  // ----- paths -----

  /** Every step goes down. */
  lemma {:induction false} PathDescends(m: Schema, rank: map<string, nat>, a: Option<string>, b: Option<string>)
    requires Ranks(m, rank) && Path(m, rank, a, b).Some?
    ensures Level(m, rank, b) + |Path(m, rank, a, b).value| <= Level(m, rank, a)
    decreases Level(m, rank, a)
  {
    if a != b { PathDescends(m, rank, m[a.value].down, b); }
  }

  /** Paths compose. */
  lemma {:induction false} PathsCompose(
      m: Schema, rank: map<string, nat>, a: Option<string>, b: Option<string>, c: Option<string>)
    requires Ranks(m, rank)
    requires Path(m, rank, a, b).Some? && Path(m, rank, b, c).Some?
    ensures Path(m, rank, a, c) == Some(Path(m, rank, a, b).value + Path(m, rank, b, c).value)
    decreases Level(m, rank, a)
  {
    PathDescends(m, rank, a, b);
    PathDescends(m, rank, b, c);
    if a == b {
      assert [] + Path(m, rank, b, c).value == Path(m, rank, b, c).value;
    } else {
      PathsCompose(m, rank, m[a.value].down, b, c);
      var p, q := Path(m, rank, m[a.value].down, b).value, Path(m, rank, b, c).value;
      assert [m[a.value]] + (p + q) == ([m[a.value]] + p) + q;
    }
  }

  /** And come apart at every revision on the way. */
  lemma {:induction false} PathsSplit(
      m: Schema, rank: map<string, nat>, a: Option<string>, b: Option<string>, c: Option<string>)
    requires Ranks(m, rank)
    requires Path(m, rank, a, b).Some? && Path(m, rank, a, c).Some?
    requires |Path(m, rank, a, b).value| <= |Path(m, rank, a, c).value|
    ensures Path(m, rank, b, c).Some?
    ensures Path(m, rank, a, c).value == Path(m, rank, a, b).value + Path(m, rank, b, c).value
    decreases Level(m, rank, a)
  {
    if a != b {
      PathsSplit(m, rank, m[a.value].down, b, c);
    }
    PathsCompose(m, rank, a, b, c);
  }

  ghost function MigrationsOf(m: Schema, c: seq<string>): seq<Migration>
    requires forall r :: r in c ==> r in m
  {
    if c == [] then [] else [m[c[0]]] + MigrationsOf(m, c[1..])
  }

  lemma TailIsChain(m: Schema, from: Option<string>, c: seq<string>)
    requires IsChain(m, from, c) && c != []
    ensures IsChain(m, m[c[0]].down, c[1..])
  {
    var d := c[1..];
    assert At(d, 0) == At(c, 1);
    forall k | 0 <= k < |d| ensures d[k] in m && m[d[k]].down == At(d, k + 1) {
      assert d[k] == c[k + 1] && At(d, k + 1) == At(c, k + 2);
    }
  }

  /** From the head of a chain down to its `i`-th revision (or past its end, to
      nothing) the path is exactly the part of the chain above it. */
  lemma {:induction false} PathIsChainPrefix(m: Schema, rank: map<string, nat>, from: Option<string>, c: seq<string>, i: nat)
    requires Ranks(m, rank) && IsChain(m, from, c) && i <= |c|
    ensures (forall r :: r in c[..i] ==> r in m)
    ensures Path(m, rank, from, At(c, i)) == Some(MigrationsOf(m, c[..i]))
    decreases i
  {
    if i == 0 {
      assert MigrationsOf(m, c[..0]) == [];
    } else {
      if i < |c| { ChainIsDistinct(m, from, c, 0, i); }
      assert from != At(c, i);
      var d := c[1..];
      assert At(d, i - 1) == At(c, i);
      TailIsChain(m, from, c);
      PathIsChainPrefix(m, rank, m[c[0]].down, d, i - 1);
      assert c[..i] == [c[0]] + d[..i - 1] && c[..i][1..] == d[..i - 1];
    }
  }

  /** For the whole accepted schema: from the head every known revision is reached
      by the migrations above it and every unknown one is refused. */
  lemma PathFromHead(m: Schema, rank: map<string, nat>, head: Option<string>, r: string)
    requires Ranks(m, rank) && Accepts(m, head)
    ensures Path(m, rank, head, Some(r)).Some? <==> r in m
    ensures r in m ==> head.Some? && head.value in m
    ensures r in m ==>
      exists i :: 0 <= i < |Chain(m, rank, head)| && Chain(m, rank, head)[i] == r
        && (forall k :: k in Chain(m, rank, head)[..i] ==> k in m)
        && Path(m, rank, head, Some(r)) == Some(MigrationsOf(m, Chain(m, rank, head)[..i]))
  {
    ChainListsEverything(m, rank, head);
    var c := Chain(m, rank, head);
    if r in m {
      var i :| 0 <= i < |c| && c[i] == r;
      PathIsChainPrefix(m, rank, head, c, i);
    } else {
      UnknownIsRefused(m, rank, head, r);
    }
  }

  lemma {:induction false} UnknownIsRefused(m: Schema, rank: map<string, nat>, a: Option<string>, r: string)
    requires Ranks(m, rank) && Closed(m) && r !in m && (a.Some? ==> a.value in m)
    ensures Path(m, rank, a, Some(r)) == None
    decreases Level(m, rank, a)
  {
    if a.Some? { UnknownIsRefused(m, rank, m[a.value].down, r); }
  }
}

/**
 Ranking metrics of the retrieval benchmark (benchmarks/retrieval_metrics.py) and
 the ranking they are given (benchmarks/retrieval_runner.py: `_score_queries`).

 Floating-point numbers are reals here. Of the discount 1 / log2(position + 1) only
 this is used: it is positive and strictly decreasing in the position.
 */
module Ranking {
  import opened Options

  type Id = string
  type Ranked = seq<Id>

  datatype Problem = Duplicates | NothingRelevant | BadCutoff

  // ----- the code -----

  /** `list(dict.fromkeys(ids))`: every id once, where it first occurs. */
  function Dedupe(ids: seq<Id>): Ranked {
    if ids == [] then []
    else
      var n := |ids| - 1;
      Dedupe(ids[..n]) + if ids[n] in ids[..n] then [] else [ids[n]]
  }

  function Cut(ranked: Ranked, k: nat): Ranked {
    if k < |ranked| then ranked[..k] else ranked
  }

  function Min(a: nat, b: nat): nat {
    if a < b then a else b
  }

  ghost predicate Distinct(ranked: Ranked) {
    forall i, j :: 0 <= i < j < |ranked| ==> ranked[i] != ranked[j]
  }

  ghost predicate Discount(d: nat -> real) {
    (forall n :: n > 0 ==> d(n) > 0.0) && forall m, n :: 0 < m < n ==> d(m) > d(n)
  }

  /** The discounts of the relevant positions, numbered from 1. */
  function Gain(ranked: Ranked, relevant: set<Id>, d: nat -> real): real {
    if ranked == [] then 0.0
    else
      var n := |ranked|;
      Gain(ranked[..n - 1], relevant, d) + if ranked[n - 1] in relevant then d(n) else 0.0
  }

  /** The discounts of positions 1 to `n`. */
  function Ideal(n: nat, d: nat -> real): real {
    if n == 0 then 0.0 else Ideal(n - 1, d) + d(n)
  }

  lemma {:induction false} IdealIsPositive(n: nat, d: nat -> real)
    requires Discount(d)
    ensures n > 0 ==> Ideal(n, d) > 0.0
  {
    if n > 1 { IdealIsPositive(n - 1, d); }
  }

  function Validate(ranked: Ranked, relevant: set<Id>, k: int): Option<Problem> {
    if exists i, j :: 0 <= i < j < |ranked| && ranked[i] == ranked[j] then Some(Duplicates)
    else if relevant == {} then Some(NothingRelevant)
    else if k < 1 then Some(BadCutoff)
    else None
  }

  /** `ndcg_at_k`. */
  function Ndcg(ranked: Ranked, relevant: set<Id>, k: int, d: nat -> real): Result<real, Problem>
    requires Discount(d)
  {
    match Validate(ranked, relevant, k)
    case Some(p) => Err(p)
    case None =>
      IdealIsPositive(Min(|relevant|, k), d);
      Ok(Gain(Cut(ranked, k), relevant, d) / Ideal(Min(|relevant|, k), d))
  }

  /** `recall_at_k`. */
  function Recall(ranked: Ranked, relevant: set<Id>, k: int): Result<real, Problem> {
    match Validate(ranked, relevant, k)
    case Some(p) => Err(p)
    case None => Ok(|Hits(Cut(ranked, k), relevant)| as real / |relevant| as real)
  }

  function Hits(ranked: Ranked, relevant: set<Id>): set<Id> {
    set id | id in relevant && id in ranked
  }

  /** `reciprocal_rank`: the reciprocal of the first relevant position. */
  method ReciprocalRank(ranked: Ranked, relevant: set<Id>) returns (r: Result<real, Problem>)
    ensures r.Err? <==> Validate(ranked, relevant, 1).Some?
    ensures r.Ok? ==> (r.value == 0.0 <==> Hits(ranked, relevant) == {})
    ensures r.Ok? && r.value != 0.0 ==>
              exists i :: 0 <= i < |ranked| && ranked[i] in relevant && r.value == 1.0 / (i + 1) as real
                          && forall j :: 0 <= j < i ==> ranked[j] !in relevant
  {
    var problem := Validate(ranked, relevant, 1);
    if problem.Some? {
      return Err(problem.value);
    }
    for position := 0 to |ranked|
      invariant forall i :: 0 <= i < position ==> ranked[i] !in relevant
    {
      if ranked[position] in relevant {
        assert ranked[position] in Hits(ranked, relevant);
        return Ok(1.0 / (position + 1) as real);
      }
    }
    return Ok(0.0);
  }

  // ----- ranking: every id once, in order, cut -----

  lemma {:induction false} DedupeIs(ids: seq<Id>)
    ensures Distinct(Dedupe(ids)) && forall id :: id in Dedupe(ids) <==> id in ids
  {
    if ids != [] {
      var n := |ids| - 1;
      assert ids == ids[..n] + [ids[n]];
      DedupeIs(ids[..n]);
    }
  }

  lemma {:induction false} DedupeExtends(ids: seq<Id>, more: seq<Id>)
    ensures Dedupe(ids) <= Dedupe(ids + more)
    decreases |more|
  {
    if more == [] {
      assert ids + more == ids;
    } else {
      var n := |more| - 1;
      DedupeExtends(ids, more[..n]);
      assert (ids + more)[..|ids + more| - 1] == ids + more[..n];
    }
  }

  // ----- the bound -----

  /** The first `m` positions are all taken, by relevant ids. */
  ghost predicate AllFirst(ranked: Ranked, relevant: set<Id>, m: nat) {
    m <= |ranked| && forall i :: 0 <= i < m ==> ranked[i] in relevant
  }

  lemma HitsOfMore(ranked: Ranked, relevant: set<Id>)
    requires ranked != [] && Distinct(ranked)
    ensures var n := |ranked| - 1; var before := ranked[..n];
            |Hits(ranked, relevant)| == |Hits(before, relevant)| + if ranked[n] in relevant then 1 else 0
  {
    var n := |ranked| - 1;
    var before := ranked[..n];
    assert ranked == before + [ranked[n]] && ranked[n] !in before;
    if ranked[n] in relevant {
      assert Hits(ranked, relevant) == Hits(before, relevant) + {ranked[n]};
    } else {
      assert Hits(ranked, relevant) == Hits(before, relevant);
    }
  }

  lemma {:induction false} HitsAreCounted(ranked: Ranked, relevant: set<Id>, m: nat)
    requires Distinct(ranked)
    ensures |Hits(ranked, relevant)| <= |ranked|
    ensures AllFirst(ranked, relevant, m) ==> |Hits(ranked, relevant)| >= m
    decreases |ranked|
  {
    if ranked != [] {
      var n := |ranked| - 1;
      HitsOfMore(ranked, relevant);
      HitsAreCounted(ranked[..n], relevant, if m <= n then m else n);
    }
  }

  lemma HitsAreRelevant(ranked: Ranked, relevant: set<Id>)
    ensures |Hits(ranked, relevant)| <= |relevant|
    ensures |Hits(ranked, relevant)| == |relevant| <==> (forall id :: id in relevant ==> id in ranked)
  {
    var rest := relevant - Hits(ranked, relevant);
    assert relevant == Hits(ranked, relevant) + rest;
    assert |rest| == 0 <==> rest == {};
  }

  /** As many hits as there are can gain no more than in front, and that much only
      there. */
  lemma {:induction false} GainIsBounded(ranked: Ranked, relevant: set<Id>, d: nat -> real)
    requires Distinct(ranked) && Discount(d)
    ensures var h := |Hits(ranked, relevant)|;
            Gain(ranked, relevant, d) <= Ideal(h, d)
            && (Gain(ranked, relevant, d) == Ideal(h, d) <==> AllFirst(ranked, relevant, h))
    decreases |ranked|
  {
    if ranked == [] { return; }
    var n := |ranked|;
    var before, h := ranked[..n - 1], |Hits(ranked, relevant)|;
    GainIsBounded(before, relevant, d);
    HitsOfMore(ranked, relevant);
    HitsAreCounted(before, relevant, h);
    assert forall i :: 0 <= i < n - 1 ==> before[i] == ranked[i];
    if ranked[n - 1] in relevant && h < n {
      assert d(n) < d(h);
    }
  }

  lemma {:induction false} IdealGrows(m: nat, n: nat, d: nat -> real)
    requires Discount(d) && m <= n
    ensures Ideal(m, d) <= Ideal(n, d) && (Ideal(m, d) == Ideal(n, d) <==> m == n)
  {
    if m < n { IdealGrows(m, n - 1, d); }
  }

  lemma {:induction false} GainIsZero(ranked: Ranked, relevant: set<Id>, d: nat -> real)
    requires Distinct(ranked) && Discount(d)
    ensures Gain(ranked, relevant, d) >= 0.0
    ensures Gain(ranked, relevant, d) == 0.0 <==> |Hits(ranked, relevant)| == 0
    decreases |ranked|
  {
    if ranked != [] {
      GainIsZero(ranked[..|ranked| - 1], relevant, d);
      HitsOfMore(ranked, relevant);
    }
  }

  lemma Quotient(a: real, b: real)
    requires b > 0.0 && 0.0 <= a <= b
    ensures 0.0 <= a / b <= 1.0 && (a / b == 1.0 <==> a == b) && (a / b == 0.0 <==> a == 0.0)
  {
    assert a == (a / b) * b;
  }

  /** nDCG of any distinct ranking lies between 0 and 1; it is 1 exactly if the
      ranking starts with as many relevant ids as fit, and 0 exactly if none is in it. */
  lemma NdcgIsBounded(ranked: Ranked, relevant: set<Id>, k: nat, d: nat -> real)
    requires Distinct(ranked) && relevant != {} && k > 0 && Discount(d)
    ensures var top, m, r := Cut(ranked, k), Min(|relevant|, k), Ndcg(ranked, relevant, k, d);
            r.Ok? && 0.0 <= r.value <= 1.0
            && (r.value == 1.0 <==> AllFirst(top, relevant, m))
            && (r.value == 0.0 <==> Hits(top, relevant) == {})
  {
    var top, m := Cut(ranked, k), Min(|relevant|, k);
    var h, gain := |Hits(top, relevant)|, Gain(top, relevant, d);
    GainIsBounded(top, relevant, d);
    GainIsZero(top, relevant, d);
    HitsAreCounted(top, relevant, m);
    HitsAreRelevant(top, relevant);
    IdealGrows(h, m, d);
    IdealIsPositive(m, d);
    Quotient(gain, Ideal(m, d));
  }

  /** What `_score_queries` ranks. */
  function Top(retrieved: seq<Id>, k: nat): Ranked {
    Cut(Dedupe(retrieved), k)
  }

  lemma TopIsDistinct(retrieved: seq<Id>, k: nat)
    ensures Distinct(Top(retrieved, k)) && |Top(retrieved, k)| <= k && Cut(Top(retrieved, k), k) == Top(retrieved, k)
  {
    DedupeIs(retrieved);
  }

  /** Whatever a retriever returns is scored, between 0 and 1, with the score 1 for
      the best possible list and no other; and what it returns after `k` different
      ids cannot change any of it. */
  lemma EveryListIsScored(retrieved: seq<Id>, more: seq<Id>, relevant: set<Id>, k: nat, d: nat -> real)
    requires relevant != {} && k > 0 && Discount(d)
    ensures var top, r := Top(retrieved, k), Ndcg(Top(retrieved, k), relevant, k, d);
            r.Ok? && 0.0 <= r.value <= 1.0
            && (r.value == 1.0 <==> AllFirst(top, relevant, Min(|relevant|, k)))
    ensures |Dedupe(retrieved)| >= k ==> Top(retrieved + more, k) == Top(retrieved, k)
  {
    TopIsDistinct(retrieved, k);
    NdcgIsBounded(Top(retrieved, k), relevant, k, d);
    DedupeExtends(retrieved, more);
  }

  // ----- the metrics together -----

  /** The metrics agree: nothing relevant found is 0 for both; recall is 1 exactly if
      everything relevant is found; and the best nDCG is the best possible recall. */
  lemma MetricsAgree(ranked: Ranked, relevant: set<Id>, k: nat, d: nat -> real)
    requires Distinct(ranked) && relevant != {} && k > 0 && Discount(d)
    ensures var ndcg, recall := Ndcg(ranked, relevant, k, d), Recall(ranked, relevant, k);
            recall.Ok? && ndcg.Ok? && 0.0 <= recall.value <= 1.0
            && (recall.value == 0.0 <==> ndcg.value == 0.0)
            && (recall.value == 1.0 <==> forall id :: id in relevant ==> id in Cut(ranked, k))
            && (ndcg.value == 1.0 ==> recall.value == Min(|relevant|, k) as real / |relevant| as real)
  {
    var top, m := Cut(ranked, k), Min(|relevant|, k);
    NdcgIsBounded(ranked, relevant, k, d);
    HitsAreRelevant(top, relevant);
    HitsAreCounted(top, relevant, m);
    var h := |Hits(top, relevant)|;
    assert h == 0 <==> Hits(top, relevant) == {};
    Quotient(h as real, |relevant| as real);
  }

  function Worth(id: Id, relevant: set<Id>, d: nat -> real, position: nat): real {
    if id in relevant then d(position) else 0.0
  }

  lemma {:induction false} GainOfUpdate(ranked: Ranked, relevant: set<Id>, d: nat -> real, i: nat, id: Id)
    requires i < |ranked|
    ensures Gain(ranked[i := id], relevant, d)
            == Gain(ranked, relevant, d) - Worth(ranked[i], relevant, d, i + 1) + Worth(id, relevant, d, i + 1)
    decreases |ranked|
  {
    var n, changed := |ranked| - 1, ranked[i := id];
    if i < n {
      GainOfUpdate(ranked[..n], relevant, d, i, id);
      assert changed[..n] == ranked[..n][i := id];
    } else {
      assert changed[..n] == ranked[..n];
    }
  }

  /** Moving a relevant id up, in exchange for one that is not, strictly raises nDCG
      and leaves recall as it is. */
  lemma EarlierIsBetter(ranked: Ranked, relevant: set<Id>, k: nat, d: nat -> real, i: nat, j: nat)
    requires Distinct(ranked) && relevant != {} && |ranked| <= k && k > 0 && Discount(d)
    requires i < j < |ranked| && ranked[i] !in relevant && ranked[j] in relevant
    ensures var better := ranked[i := ranked[j]][j := ranked[i]];
            Distinct(better)
            && Ndcg(better, relevant, k, d).value > Ndcg(ranked, relevant, k, d).value
            && Recall(better, relevant, k) == Recall(ranked, relevant, k)
  {
    var once := ranked[i := ranked[j]];
    var better := once[j := ranked[i]];
    GainOfUpdate(ranked, relevant, d, i, ranked[j]);
    GainOfUpdate(once, relevant, d, j, ranked[i]);
    assert d(i + 1) > d(j + 1);
    IdealIsPositive(Min(|relevant|, k), d);
    assert forall id :: id in better <==> id in ranked by {
      assert better[i] == ranked[j] && better[j] == ranked[i];
      assert forall n :: 0 <= n < |ranked| && n != i && n != j ==> better[n] == ranked[n];
    }
    assert Hits(better, relevant) == Hits(ranked, relevant);
    Larger(Gain(ranked, relevant, d), Gain(better, relevant, d), Ideal(Min(|relevant|, k), d));
  }

  lemma Larger(a: real, b: real, c: real)
    requires a < b && c > 0.0
    ensures a / c < b / c
  {
    assert b / c - a / c == (b - a) / c;
  }
}

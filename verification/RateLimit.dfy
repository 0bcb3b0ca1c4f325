/**
 The limit on new connections per second
 (apps/backend/deploy/egress/paw_egress.py: `EgressProxy._too_fast`).

 Times are those of the event loop's clock, in seconds, and never go back.
 */
module RateLimit {

  type Times = seq<real>

  // ----- the code -----

  /** Forget the admissions that are a second old. */
  function Trim(recent: Times, now: real): Times {
    if recent != [] && now - recent[0] >= 1.0 then Trim(recent[1..], now) else recent
  }

  predicate TooFast(recent: Times, max: nat, now: real) {
    |Trim(recent, now)| >= max
  }

  function After(recent: Times, max: nat, now: real): Times {
    Trim(recent, now) + if TooFast(recent, max, now) then [] else [now]
  }

  class Limiter {
    var recent: Times
    const max: nat

    constructor (max: nat)
      ensures recent == [] && this.max == max
    {
      recent := [];
      this.max := max;
    }

    /** `_too_fast`. */
    method Ask(now: real) returns (tooFast: bool)
      modifies this
      ensures tooFast == TooFast(old(recent), max, now)
      ensures recent == After(old(recent), max, now)
    {
      while recent != [] && now - recent[0] >= 1.0
        invariant Trim(recent, now) == Trim(old(recent), now)
        decreases |recent|
      {
        recent := recent[1..];
      }
      if |recent| >= max {
        return true;
      }
      recent := recent + [now];
      return false;
    }
  }

  // ----- every sequence of arrivals -----

  ghost predicate Sorted(times: Times) {
    forall i, j :: 0 <= i < j < |times| ==> times[i] <= times[j]
  }

  /** The deque after these arrivals. */
  ghost function Recent(times: Times, max: nat): Times {
    if times == [] then [] else After(Recent(times[..|times| - 1], max), max, times[|times| - 1])
  }

  /** The arrivals that were let in. */
  ghost function Admitted(times: Times, max: nat): Times {
    if times == [] then []
    else
      var n := |times| - 1;
      Admitted(times[..n], max) + if TooFast(Recent(times[..n], max), max, times[n]) then [] else [times[n]]
  }

  /** How many of `times` are less than a second before `now`. */
  ghost function Within(times: Times, now: real): nat {
    if times == [] then 0
    else Within(times[..|times| - 1], now) + if now - times[|times| - 1] < 1.0 then 1 else 0
  }

  /** Of the admissions from the `c`-th on, those a second old are forgotten. */
  lemma {:induction false} TrimIs(admitted: Times, c: nat, now: real) returns (d: nat)
    requires Sorted(admitted) && c <= |admitted|
    ensures c <= d <= |admitted| && Trim(admitted[c..], now) == admitted[d..]
    ensures forall i :: c <= i < d ==> now - admitted[i] >= 1.0
    ensures forall i :: d <= i < |admitted| ==> now - admitted[i] < 1.0
    decreases |admitted| - c
  {
    if c < |admitted| && now - admitted[c] >= 1.0 {
      assert admitted[c..][1..] == admitted[c + 1..];
      d := TrimIs(admitted, c + 1, now);
    } else {
      d := c;
    }
  }

  /** The deque is the end of the admitted ones; the others are a second old. */
  ghost predicate Kept(recent: Times, admitted: Times, max: nat, now: real) {
    |recent| <= max && |recent| <= |admitted|
    && recent == admitted[|admitted| - |recent|..]
    && Sorted(admitted)
    && (forall i :: 0 <= i < |admitted| ==> admitted[i] <= now)
    && (forall i :: 0 <= i < |admitted| - |recent| ==> now - admitted[i] >= 1.0)
  }

  ghost predicate Spaced(admitted: Times, max: nat) {
    forall i, j :: 0 <= i && j == i + max && j < |admitted| ==> admitted[j] - admitted[i] >= 1.0
  }

  lemma TrimKeeps(recent: Times, admitted: Times, max: nat, before: real, now: real)
    requires Kept(recent, admitted, max, before) && before <= now
    ensures Kept(Trim(recent, now), admitted, max, now)
  {
    var d := TrimIs(admitted, |admitted| - |recent|, now);
  }

  lemma AdmissionKeeps(recent: Times, admitted: Times, max: nat, now: real)
    requires Kept(recent, admitted, max, now) && |recent| < max && Spaced(admitted, max)
    ensures Kept(recent + [now], admitted + [now], max, now) && Spaced(admitted + [now], max)
  {
    var added, a := admitted + [now], |admitted|;
    assert added[a - |recent|..] == recent + [now];
    assert a >= max ==> now - admitted[a - max] >= 1.0;
  }

  lemma ArrivalKeeps(recent: Times, admitted: Times, max: nat, before: real, now: real)
    requires Kept(recent, admitted, max, before) && before <= now && (max > 0 ==> Spaced(admitted, max))
    requires max == 0 ==> admitted == []
    ensures var added := admitted + if TooFast(recent, max, now) then [] else [now];
            Kept(After(recent, max, now), added, max, now)
            && (max > 0 ==> Spaced(added, max)) && (max == 0 ==> added == [])
  {
    TrimKeeps(recent, admitted, max, before, now);
    var t := Trim(recent, now);
    if TooFast(recent, max, now) {
      assert t + [] == t && admitted + [] == admitted;
    } else {
      AdmissionKeeps(t, admitted, max, now);
    }
  }

  lemma Later(recent: Times, admitted: Times, max: nat, before: real, now: real)
    requires Kept(recent, admitted, max, before) && before <= now
    ensures Kept(recent, admitted, max, now)
  {
  }

  lemma {:induction false} RunKeeps(times: Times, max: nat, now: real)
    requires Sorted(times) && forall i :: 0 <= i < |times| ==> times[i] <= now
    ensures Kept(Recent(times, max), Admitted(times, max), max, now)
    ensures max > 0 ==> Spaced(Admitted(times, max), max)
    ensures max == 0 ==> Admitted(times, max) == []
    decreases |times|
  {
    if times != [] {
      var n := |times| - 1;
      var before, last := times[..n], times[n];
      RunKeeps(before, max, last);
      var recent, admitted := Recent(before, max), Admitted(before, max);
      ArrivalKeeps(recent, admitted, max, last, last);
      Later(Recent(times, max), Admitted(times, max), max, last, now);
    }
  }

  /** Any `max + 1` admitted one after the other span at least a second. */
  lemma AdmittedAreSpaced(times: Times, max: nat, i: nat)
    requires Sorted(times) && i + max < |Admitted(times, max)|
    ensures var a := Admitted(times, max); a[i + max] - a[i] >= 1.0
  {
    RunKeeps(times, max, times[|times| - 1]);
  }

  lemma {:induction false} WithinIs(admitted: Times, now: real, n: nat)
    requires n <= |admitted|
    requires forall i :: 0 <= i < |admitted| ==> (now - admitted[i] < 1.0 <==> i >= n)
    ensures Within(admitted, now) == |admitted| - n
    decreases |admitted|
  {
    var m := |admitted| - 1;
    if n <= m { WithinIs(admitted[..m], now, n); }
    else if m >= 0 { WithinIs(admitted[..m], now, m); }
  }

  lemma DroppedFor(recent: Times, admitted: Times, max: nat, now: real)
    requires Kept(recent, admitted, max, now)
    ensures TooFast(recent, max, now) <==> Within(admitted, now) >= max
  {
    var d := TrimIs(admitted, |admitted| - |recent|, now);
    WithinIs(admitted, now, d);
  }

  /** An arrival is turned away exactly if `max` were admitted within the second
      before it. */
  lemma DroppedIff(times: Times, max: nat, now: real)
    requires Sorted(times) && forall i :: 0 <= i < |times| ==> times[i] <= now
    ensures TooFast(Recent(times, max), max, now) <==> Within(Admitted(times, max), now) >= max
  {
    RunKeeps(times, max, now);
    DroppedFor(Recent(times, max), Admitted(times, max), max, now);
  }

  // ----- any second at all -----

  /** How many of `times` are in the second that starts at `from`. */
  ghost function InSecond(times: Times, from: real): nat {
    if times == [] then 0
    else
      var n := |times| - 1;
      InSecond(times[..n], from) + if from <= times[n] < from + 1.0 then 1 else 0
  }

  /** While all are before the end of that second, those in it are the last ones. */
  lemma {:induction false} LastOnes(times: Times, from: real)
    requires Sorted(times) && forall i :: 0 <= i < |times| ==> times[i] < from + 1.0
    ensures var c := InSecond(times, from);
            c <= |times| && forall i :: |times| - c <= i < |times| ==> times[i] >= from
    decreases |times|
  {
    if times != [] { LastOnes(times[..|times| - 1], from); }
  }

  lemma {:induction false} SpacedFitsSecond(times: Times, max: nat, from: real)
    requires Sorted(times) && max > 0 && Spaced(times, max)
    ensures InSecond(times, from) <= max
    decreases |times|
  {
    if times != [] {
      var n := |times| - 1;
      SpacedFitsSecond(times[..n], max, from);
      if from <= times[n] < from + 1.0 {
        LastOnes(times, from);
        assert n - max >= 0 ==> times[n] - times[n - max] >= 1.0;
      }
    }
  }

  /** No second, wherever it starts, sees more than `max` admissions. */
  lemma NoSecondHoldsMore(times: Times, max: nat, from: real)
    requires Sorted(times)
    ensures InSecond(Admitted(times, max), from) <= max
  {
    if times != [] {
      RunKeeps(times, max, times[|times| - 1]);
      if max > 0 { SpacedFitsSecond(Admitted(times, max), max, from); }
    }
  }
}

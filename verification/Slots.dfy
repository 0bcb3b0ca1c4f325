/**
 The bounded gate in front of the dedicated database connections
 (apps/backend/paw_backend/db.py, `_Slots`).

 A call that asks for a slot is a coroutine: it either takes a free slot at
 once or suspends on a future. `State` holds the gate's own fields together
 with the program point of every call, and each stretch of code between two
 awaits is one atomic step, so a run is any interleaving of such stretches.
 */
module Slots {
  import opened Options

  datatype Future = Pending | Handed | Failed | Cancelled

  /** Where a call is. `cancelled` says that its task was told to cancel: the
      next resumption raises, whatever happened to the future meanwhile. */
  datatype Phase =
    | Waiting(future: Future, cancelled: bool)
    | Holding
    | Ended

  /** Calls are numbered in order of arrival; `arrivals` is the next number. */
  datatype State = State(
    size: nat,
    inUse: nat,
    waiters: seq<nat>,
    calls: map<nat, Phase>,
    arrivals: nat)
  {
    predicate Pending(c: nat) {
      c in calls && calls[c].Waiting? && calls[c].future.Pending?
    }

    predicate Holds(c: nat) {
      c in calls && calls[c].Holding?
    }

    predicate HandedOver(c: nat) {
      c in calls && calls[c].Waiting? && calls[c].future.Handed?
    }
  }

  function Initial(size: nat): State {
    State(size, 0, [], map[], 0)
  }

  // ----- the code, one function per atomic stretch -----

  /** `acquire` up to its await: a free slot is taken, otherwise the call queues. */
  function Enter(s: State): State {
    if s.inUse < s.size then
      s.(inUse := s.inUse + 1, calls := s.calls[s.arrivals := Holding], arrivals := s.arrivals + 1)
    else
      s.(waiters := s.waiters + [s.arrivals],
         calls := s.calls[s.arrivals := Waiting(Future.Pending, false)],
         arrivals := s.arrivals + 1)
  }

  /** `release` once it is known that a slot is in use. */
  function Serve(s: State): State
    requires s.inUse > 0
    decreases |s.waiters|
  {
    if s.waiters == [] then
      s.(inUse := s.inUse - 1)
    else
      var w := s.waiters[0];
      var rest := s.(waiters := s.waiters[1..]);
      if s.Pending(w) then
        rest.(calls := s.calls[w := s.calls[w].(future := Handed)])
      else
        Serve(rest)
  }

  /** Call `c` is over and the slot it owned is released. */
  function GiveBack(s: State, c: nat): State
    requires s.inUse > 0
  {
    Serve(s.(calls := s.calls[c := Ended]))
  }

  /** `Task.cancel` on a waiting call: a pending future is cancelled, a finished
      one is left as it is and the cancellation is delivered on resumption. */
  function Cancel(s: State, c: nat): State
    requires c in s.calls && s.calls[c].Waiting?
  {
    var f := s.calls[c].future;
    s.(calls := s.calls[c := Waiting(if f.Pending? then Future.Cancelled else f, true)])
  }

  /** `acquire` after its await. */
  function Resume(s: State, c: nat): State
    requires c in s.calls && s.calls[c].Waiting? && !s.calls[c].future.Pending?
    requires s.HandedOver(c) ==> s.inUse > 0
  {
    var p := s.calls[c];
    if p.future.Handed? && !p.cancelled then
      s.(calls := s.calls[c := Holding])
    else if p.future.Handed? then
      GiveBack(s, c)
    else
      s.(calls := s.calls[c := Ended], waiters := Without(s.waiters, c))
  }

  /** `self._waiters.pop(waiter, None)`. */
  function Without(q: seq<nat>, c: nat): seq<nat> {
    if q == [] then []
    else if q[0] == c then q[1..]
    else [q[0]] + Without(q[1..], c)
  }

  function FailAll(s: State): State {
    s.(waiters := [],
       calls := map d | d in s.calls ::
         if d in s.waiters && s.Pending(d) then s.calls[d].(future := Failed) else s.calls[d])
  }

  // ----- runs -----

  datatype Step =
    | Arrive
    | Cancellation(c: nat)
    | Resumption(c: nat)
    | Return(c: nat)
    | FailWaiters

  predicate Enabled(s: State, step: Step) {
    match step
    case Arrive => true
    case Cancellation(c) => c in s.calls && s.calls[c].Waiting?
    case Resumption(c) => c in s.calls && s.calls[c].Waiting? && !s.calls[c].future.Pending?
    case Return(c) => s.Holds(c)
    case FailWaiters => true
  }

  /** The next state, or `None` where `release` raises because no slot is in use. */
  function Apply(s: State, step: Step): Option<State>
    requires Enabled(s, step)
  {
    match step
    case Arrive => Some(Enter(s))
    case Cancellation(c) => Some(Cancel(s, c))
    case Resumption(c) =>
      if s.HandedOver(c) && s.inUse == 0 then None else Some(Resume(s, c))
    case Return(c) => if s.inUse == 0 then None else Some(GiveBack(s, c))
    case FailWaiters => Some(FailAll(s))
  }

  /** Every interleaving: `states` is what `steps` does from an empty gate. */
  ghost predicate IsRun(size: nat, states: seq<State>, steps: seq<Step>) {
    && |states| == |steps| + 1
    && states[0] == Initial(size)
    && forall i :: 0 <= i < |steps| ==>
         Enabled(states[i], steps[i]) && Apply(states[i], steps[i]) == Some(states[i + 1])
  }

  // ----- the invariant -----

  function Holders(s: State): set<nat> {
    set c | c in s.calls && s.calls[c].Holding?
  }

  function Reserved(s: State): set<nat> {
    set c | c in s.calls && s.calls[c].Waiting? && s.calls[c].future.Handed?
  }

  ghost predicate Ordered(q: seq<nat>) {
    forall i, j :: 0 <= i < j < |q| ==> q[i] < q[j]
  }

  /** What holds of the queue and the calls, whoever owns the slots. */
  ghost predicate Queued(s: State) {
    && Ordered(s.waiters)
    && (forall c :: c in s.calls ==> c < s.arrivals)
    && (forall w :: w in s.waiters ==> w in s.calls && s.calls[w].Waiting?
                                       && s.calls[w].future in {Future.Pending, Future.Cancelled})
    && (forall c :: s.Pending(c) ==> c in s.waiters)
    && (s.waiters != [] ==> s.inUse == s.size)
    && s.inUse <= s.size
  }

  ghost predicate Inv(s: State) {
    Queued(s) && s.inUse == |Holders(s)| + |Reserved(s)|
  }

  // ----- the invariant is kept -----

  lemma OwnerMeansInUse(s: State, c: nat)
    requires Inv(s)
    ensures s.Holds(c) || s.HandedOver(c) ==> s.inUse > 0
  {
    assert s.Holds(c) ==> c in Holders(s);
    assert s.HandedOver(c) ==> c in Reserved(s);
  }

  /** A call that becomes an owner, stops being one, or changes sides. */
  lemma Recount(s: State, c: nat, p: Phase)
    ensures var t := s.(calls := s.calls[c := p]);
            && Holders(t) == (if p.Holding? then Holders(s) + {c} else Holders(s) - {c})
            && Reserved(t) == (if p.Waiting? && p.future.Handed? then Reserved(s) + {c} else Reserved(s) - {c})
  {
  }

  lemma OrderedJoin(q: seq<nat>, r: seq<nat>)
    requires Ordered(q) && Ordered(r)
    requires forall x, y :: x in q && y in r ==> x < y
    ensures Ordered(q + r)
  {
    forall i, j | 0 <= i < |q| <= j < |q + r| ensures (q + r)[i] < (q + r)[j] {
      assert q[i] in q && r[j - |q|] in r;
    }
  }

  lemma EnterKeeps(s: State)
    requires Inv(s)
    ensures Inv(Enter(s))
  {
    var p := if s.inUse < s.size then Holding else Waiting(Future.Pending, false);
    Recount(s, s.arrivals, p);
    assert s.arrivals !in Holders(s) && s.arrivals !in Reserved(s);
    var t := Enter(s);
    assert Holders(t) == Holders(s.(calls := s.calls[s.arrivals := p]));
    assert Reserved(t) == Reserved(s.(calls := s.calls[s.arrivals := p]));
    EnterQueues(s);
  }

  lemma EnterQueues(s: State)
    requires Queued(s)
    ensures Queued(Enter(s))
  {
    OrderedJoin(s.waiters, [s.arrivals]);
    assert forall w :: w in s.waiters + [s.arrivals] <==> w in s.waiters || w == s.arrivals;
  }

  lemma ServeSkips(s: State)
    requires s.inUse > 0 && Queued(s) && s.waiters != [] && !s.Pending(s.waiters[0])
    ensures var rest := s.(waiters := s.waiters[1..]);
            Serve(s) == Serve(rest) && Queued(rest) && forall c :: rest.Pending(c) == s.Pending(c)
  {
    var w, rest := s.waiters[0], s.waiters[1..];
    assert s.waiters == [w] + rest;
    assert forall x :: x in s.waiters <==> x == w || x in rest;
  }

  lemma ServeFirst(s: State)
    requires Queued(s) && s.inUse == |Holders(s)| + |Reserved(s)| + 1
    requires s.waiters != [] && s.Pending(s.waiters[0])
    ensures Inv(Serve(s))
  {
    var w := s.waiters[0];
    var rest := s.(waiters := s.waiters[1..]);
    ServeFirstQueues(s);
    Recount(rest, w, s.calls[w].(future := Handed));
    assert Holders(rest) == Holders(s) && Reserved(rest) == Reserved(s);
    assert w !in Holders(s) && w !in Reserved(s);
  }

  lemma ServeFirstQueues(s: State)
    requires Queued(s) && s.inUse > 0 && s.waiters != [] && s.Pending(s.waiters[0])
    ensures Queued(Serve(s))
  {
    var w, rest := s.waiters[0], s.waiters[1..];
    assert s.waiters == [w] + rest;
    assert forall x :: x in s.waiters <==> x == w || x in rest;
    assert w !in rest;
  }

  /** A release with one owner fewer than slots in use: the oldest live waiter
      owns the slot, or the slot is free. */
  lemma {:induction false} ServeKeeps(s: State)
    requires Queued(s) && s.inUse == |Holders(s)| + |Reserved(s)| + 1
    ensures Inv(Serve(s))
    decreases |s.waiters|
  {
    if s.waiters != [] {
      if s.Pending(s.waiters[0]) {
        ServeFirst(s);
      } else {
        ServeSkips(s);
        var rest := s.(waiters := s.waiters[1..]);
        assert Holders(rest) == Holders(s) && Reserved(rest) == Reserved(s);
        ServeKeeps(rest);
      }
    }
  }

  lemma GiveBackKeeps(s: State, c: nat)
    requires Inv(s) && (s.Holds(c) || s.HandedOver(c))
    ensures s.inUse > 0 && Inv(GiveBack(s, c)) && GiveBack(s, c).size == s.size
  {
    OwnerMeansInUse(s, c);
    Recount(s, c, Ended);
    assert c in Holders(s) + Reserved(s) && Holders(s) !! Reserved(s);
    ServeKeeps(s.(calls := s.calls[c := Ended]));
    ServeSize(s.(calls := s.calls[c := Ended]));
  }

  lemma {:induction false} WithoutIs(q: seq<nat>, c: nat)
    requires Ordered(q)
    ensures Ordered(Without(q, c))
    ensures forall x :: x in Without(q, c) <==> x in q && x != c
  {
    if q != [] {
      assert q == [q[0]] + q[1..];
      WithoutIs(q[1..], c);
      assert forall x :: x in q[1..] ==> q[0] < x;
      OrderedJoin([q[0]], Without(q[1..], c));
    }
  }

  lemma LeaveKeeps(s: State, c: nat)
    requires Inv(s) && c in s.calls && s.calls[c].Waiting?
    requires !s.Pending(c) && !s.HandedOver(c)
    ensures Inv(Resume(s, c))
    ensures Holders(Resume(s, c)) == Holders(s) && Reserved(Resume(s, c)) == Reserved(s)
  {
    WithoutIs(s.waiters, c);
    var t := Resume(s, c);
    assert Holders(t) == Holders(s) && Reserved(t) == Reserved(s);
    assert t.waiters != [] ==> t.waiters[0] in s.waiters;
  }

  lemma ResumeKeeps(s: State, c: nat)
    requires Inv(s) && Enabled(s, Resumption(c))
    ensures s.HandedOver(c) ==> s.inUse > 0
    ensures Inv(Resume(s, c)) && Resume(s, c).size == s.size
  {
    OwnerMeansInUse(s, c);
    var p := s.calls[c];
    if p.future.Handed? && !p.cancelled {
      Recount(s, c, Holding);
      assert c in Reserved(s) && c !in Holders(s);
    } else if p.future.Handed? {
      GiveBackKeeps(s, c);
    } else {
      LeaveKeeps(s, c);
    }
  }

  lemma CancelKeeps(s: State, c: nat)
    requires Inv(s) && Enabled(s, Cancellation(c))
    ensures Inv(Cancel(s, c))
  {
    Recount(s, c, Cancel(s, c).calls[c]);
    assert s.HandedOver(c) <==> c in Reserved(s);
    assert Holders(Cancel(s, c)) == Holders(s) && Reserved(Cancel(s, c)) == Reserved(s);
  }

  lemma FailAllKeeps(s: State)
    requires Inv(s)
    ensures Inv(FailAll(s))
    ensures forall c :: !FailAll(s).Pending(c)
    ensures Holders(FailAll(s)) == Holders(s) && Reserved(FailAll(s)) == Reserved(s)
  {
    var t := FailAll(s);
    assert forall c :: s.Pending(c) ==> c in s.waiters;
    assert Holders(t) == Holders(s) && Reserved(t) == Reserved(s);
  }

  /** No enabled stretch raises, and each keeps the invariant. */
  lemma StepKeeps(s: State, step: Step)
    requires Inv(s) && Enabled(s, step)
    ensures Apply(s, step).Some? && Inv(Apply(s, step).value) && Apply(s, step).value.size == s.size
  {
    match step
    case Arrive => EnterKeeps(s);
    case Cancellation(c) => CancelKeeps(s, c);
    case Resumption(c) => ResumeKeeps(s, c);
    case Return(c) => GiveBackKeeps(s, c);
    case FailWaiters => FailAllKeeps(s);
  }

  // ----- what every run guarantees -----

  lemma {:induction false} RunKeeps(size: nat, states: seq<State>, steps: seq<Step>, i: nat)
    requires IsRun(size, states, steps) && i < |states|
    ensures Inv(states[i]) && states[i].size == size
  {
    if i == 0 {
      assert Holders(states[0]) == {} && Reserved(states[0]) == {};
    } else {
      RunKeeps(size, states, steps, i - 1);
      StepKeeps(states[i - 1], steps[i - 1]);
    }
  }

  lemma {:induction false} ServeSize(s: State)
    requires s.inUse > 0
    ensures Serve(s).size == s.size && Serve(s).arrivals == s.arrivals
    decreases |s.waiters|
  {
    if s.waiters != [] { ServeSize(s.(waiters := s.waiters[1..])); }
  }

  /** The whole accounting, at every point of every interleaving: each slot in
      use belongs to one holder or is reserved for one waiter that has not run
      yet; there are never more than `size`; nobody waits while a slot is free;
      and a queue without an owner to serve it exists only in a gate of size 0. */
  lemma SlotsAreAccountedFor(size: nat, states: seq<State>, steps: seq<Step>, i: nat)
    requires IsRun(size, states, steps) && i < |states|
    ensures var s := states[i];
            && s.inUse == |Holders(s)| + |Reserved(s)| <= size
            && (forall c :: s.Pending(c) ==> s.inUse == size)
            && (forall c :: s.Pending(c) && size > 0 ==> Holders(s) + Reserved(s) != {})
    ensures i < |steps| ==> Apply(states[i], steps[i]).Some?
  {
    RunKeeps(size, states, steps, i);
    if i < |steps| { StepKeeps(states[i], steps[i]); }
    var s := states[i];
    if Holders(s) + Reserved(s) == {} {
      assert Holders(s) == {} && Reserved(s) == {};
    }
  }

  lemma OldestIsFirst(s: State)
    requires Queued(s) && s.waiters != []
    ensures forall c :: s.Pending(c) ==> s.waiters[0] <= c
  {
    var w, rest := s.waiters[0], s.waiters[1..];
    assert s.waiters == [w] + rest;
    assert forall x :: x in s.waiters <==> x == w || x in rest;
    assert forall x :: x in rest ==> w < x;
  }

  /** Exactly what a release does to the calls: it serves the oldest live waiter
      and nobody else, or frees the slot when no live waiter exists. */
  lemma {:induction false} ServeHandsToOldest(s: State)
    requires s.inUse > 0 && Queued(s)
    ensures var t := Serve(s);
            if exists c :: s.Pending(c) then
              exists w :: s.Pending(w) && (forall c :: s.Pending(c) ==> w <= c)
                && t.inUse == s.inUse
                && t.calls == s.calls[w := s.calls[w].(future := Handed)]
            else t.inUse == s.inUse - 1 && t.calls == s.calls && t.waiters == []
    decreases |s.waiters|
  {
    if s.waiters != [] {
      var w := s.waiters[0];
      var rest := s.(waiters := s.waiters[1..]);
      if s.Pending(w) {
        OldestIsFirst(s);
      } else {
        ServeSkips(s);
        ServeHandsToOldest(rest);
      }
    }
  }

  /** First come, first served, over whole runs: a call that becomes an owner at
      step `i` was either the newcomer itself while nobody waited, or the oldest
      of all calls that were still waiting. */
  lemma NobodyOvertakes(size: nat, states: seq<State>, steps: seq<Step>, i: nat, c: nat)
    requires IsRun(size, states, steps) && i < |steps|
    requires var s := states[i]; var t := states[i + 1];
             !s.Holds(c) && !s.HandedOver(c) && (t.Holds(c) || t.HandedOver(c))
    ensures forall d :: states[i].Pending(d) && d != c ==> c < d
    ensures steps[i].Arrive? ==> c == states[i].arrivals && forall d :: !states[i].Pending(d)
  {
    RunKeeps(size, states, steps, i);
    var s := states[i];
    match steps[i]
    case Arrive =>
    case Cancellation(_) =>
    case FailWaiters =>
    case Resumption(d) => GiveBackServes(s, d, c);
    case Return(d) => GiveBackServes(s, d, c);
  }

  lemma GiveBackServes(s: State, d: nat, c: nat)
    requires Inv(s)
    requires !s.Holds(c) && !s.HandedOver(c)
    ensures s.Holds(d) || s.HandedOver(d) ==> s.inUse > 0
    ensures (s.Holds(d) || s.HandedOver(d)) && GiveBack(s, d).HandedOver(c) ==>
              s.Pending(c) && forall e :: s.Pending(e) ==> c <= e
    ensures s.Holds(d) || s.HandedOver(d) ==> !GiveBack(s, d).Holds(c)
  {
    OwnerMeansInUse(s, d);
    if s.Holds(d) || s.HandedOver(d) {
      var t := s.(calls := s.calls[d := Ended]);
      assert forall e :: t.Pending(e) <==> s.Pending(e);
      ServeHandsToOldest(t);
    }
  }

  /** What each stretch does to its own call: an arrival takes a free slot or waits; a
      waiter that was handed a slot and not cancelled holds it; every other waiter that
      runs again, and every holder that returns its slot, is over; a cancellation ends a
      pending wait and is remembered by one that is over already; failing the waiters
      leaves nobody pending. */
  lemma EachToItsOwn(size: nat, states: seq<State>, steps: seq<Step>, i: nat)
    requires IsRun(size, states, steps) && i < |steps|
    ensures var s, t := states[i], states[i + 1];
            match steps[i]
            case Arrive => if s.inUse < size then t.Holds(s.arrivals) else t.Pending(s.arrivals)
            case Resumption(c) =>
              if s.HandedOver(c) && !s.calls[c].cancelled then t.Holds(c) else c in t.calls && t.calls[c].Ended?
            case Return(c) => c in t.calls && t.calls[c].Ended?
            case Cancellation(c) =>
              t.calls == s.calls[c := Waiting(if s.Pending(c) then Future.Cancelled else s.calls[c].future, true)]
            case FailWaiters =>
              forall c :: !t.Pending(c) && (s.Pending(c) ==> c in t.calls && t.calls[c] == s.calls[c].(future := Failed))
  {
    RunKeeps(size, states, steps, i);
    var s := states[i];
    match steps[i]
    case Resumption(c) =>
      OwnerMeansInUse(s, c);
      if s.HandedOver(c) && s.calls[c].cancelled { EndsStay(s.(calls := s.calls[c := Ended]), c); }
    case Return(c) =>
      OwnerMeansInUse(s, c);
      EndsStay(s.(calls := s.calls[c := Ended]), c);
    case FailWaiters => FailAllKeeps(s);
    case _ =>
  }

  lemma {:induction false} EndsStay(s: State, c: nat)
    requires s.inUse > 0 && c in s.calls && s.calls[c].Ended?
    ensures c in Serve(s).calls && Serve(s).calls[c].Ended?
    decreases |s.waiters|
  {
    if s.waiters != [] && !s.Pending(s.waiters[0]) { EndsStay(s.(waiters := s.waiters[1..]), c); }
  }

  /** Cancelled while it waited, and not yet or already gone. */
  ghost predicate GivenUp(s: State, c: nat) {
    c in s.calls && (s.calls[c].Ended? || (s.calls[c].Waiting? && s.calls[c].cancelled))
  }

  /** A release makes nobody wait who did not, and no cancelled call go on. */
  lemma {:induction false} ServeFrame(s: State, c: nat)
    requires s.inUse > 0
    ensures GivenUp(s, c) ==> GivenUp(Serve(s), c)
    ensures Serve(s).Pending(c) ==> s.Pending(c)
    decreases |s.waiters|
  {
    if s.waiters != [] && !s.Pending(s.waiters[0]) { ServeFrame(s.(waiters := s.waiters[1..]), c); }
  }

  lemma GiveBackFrame(s: State, d: nat, c: nat)
    requires s.inUse > 0
    ensures GivenUp(s, c) ==> GivenUp(GiveBack(s, d), c)
    ensures GiveBack(s, d).Pending(c) ==> s.Pending(c)
  {
    ServeFrame(s.(calls := s.calls[d := Ended]), c);
  }

  lemma GivenUpStays(s: State, step: Step, c: nat)
    requires Inv(s) && GivenUp(s, c) && Enabled(s, step)
    ensures Apply(s, step).Some? && GivenUp(Apply(s, step).value, c)
  {
    StepKeeps(s, step);
    match step
    case Resumption(d) => if s.HandedOver(d) && s.calls[d].cancelled { GiveBackFrame(s, d, c); }
    case Return(d) => GiveBackFrame(s, d, c);
    case _ =>
  }

  /** A call cancelled while it waits never holds a slot, whether the slot was handed to
      it before the cancellation or not, however the run goes on. */
  lemma {:induction false} CancelledNeverHolds(
      size: nat, states: seq<State>, steps: seq<Step>, i: nat, j: nat, c: nat)
    requires IsRun(size, states, steps) && i < j < |states| && steps[i] == Cancellation(c)
    ensures !states[j].Holds(c) && GivenUp(states[j], c)
    decreases j
  {
    if j > i + 1 {
      CancelledNeverHolds(size, states, steps, i, j - 1, c);
      RunKeeps(size, states, steps, j - 1);
      GivenUpStays(states[j - 1], steps[j - 1], c);
    }
  }

  // ----- the object itself -----

  /** `_Slots` with its fields; `calls` are the futures and their coroutines. */
  class Gate {
    const size: nat
    var inUse: nat
    var waiters: seq<nat>
    var calls: map<nat, Phase>
    var arrivals: nat

    ghost function View(): State
      reads this
    {
      State(size, inUse, waiters, calls, arrivals)
    }

    constructor (size: nat)
      ensures View() == Initial(size)
    {
      this.size := size;
      inUse, waiters, calls, arrivals := 0, [], map[], 0;
    }

    /** Up to the await; `taken` says that there was none. */
    method Acquire() returns (c: nat, taken: bool)
      modifies this
      ensures View() == Enter(old(View())) && c == old(arrivals)
      ensures taken == View().Holds(c)
    {
      c, arrivals := arrivals, arrivals + 1;
      taken := inUse < size;
      if taken {
        inUse := inUse + 1;
        calls := calls[c := Holding];
      } else {
        waiters := waiters + [c];
        calls := calls[c := Waiting(Future.Pending, false)];
      }
    }

    /** `ok` is false where the source raises. */
    method Release() returns (ok: bool)
      modifies this
      ensures ok == (old(inUse) > 0)
      ensures View() == if ok then Serve(old(View())) else old(View())
    {
      if inUse == 0 {
        return false;
      }
      while waiters != []
        invariant inUse > 0
        invariant Serve(View()) == Serve(old(View()))
        decreases |waiters|
      {
        var waiter := waiters[0];
        waiters := waiters[1..];
        if waiter in calls && calls[waiter].Waiting? && calls[waiter].future.Pending? {
          calls := calls[waiter := calls[waiter].(future := Handed)];
          return true;
        }
      }
      inUse := inUse - 1;
      return true;
    }

    /** After the await of call `c`: `taken` unless the wait ended with an error. */
    method Continue(c: nat) returns (taken: bool)
      requires Inv(View()) && Enabled(View(), Resumption(c))
      modifies this
      ensures old(View()).HandedOver(c) ==> old(inUse) > 0
      ensures View() == Resume(old(View()), c)
      ensures taken == old(View().HandedOver(c) && !calls[c].cancelled)
    {
      OwnerMeansInUse(View(), c);
      var p := calls[c];
      taken := p.future.Handed? && !p.cancelled;
      calls := calls[c := if taken then Holding else Ended];
      if p.future.Handed? {
        if p.cancelled {
          var _ := Release();
        }
      } else {
        waiters := Without(waiters, c);
      }
    }

    method FailWaiters()
      modifies this
      ensures View() == FailAll(old(View()))
    {
      var failing := waiters;
      waiters := [];
      for i := 0 to |failing|
        invariant View() == old(View()).(waiters := [], calls := calls)
        invariant calls.Keys == old(calls).Keys
        invariant forall d :: d in calls ==>
          calls[d] == if d in failing[..i] && old(View()).Pending(d)
                      then old(calls)[d].(future := Failed) else old(calls)[d]
      {
        var w := failing[i];
        assert failing[..i + 1] == failing[..i] + [w];
        if w in calls && calls[w].Waiting? && calls[w].future.Pending? {
          calls := calls[w := calls[w].(future := Failed)];
        }
      }
      assert failing[..|failing|] == failing;
    }
  }
}

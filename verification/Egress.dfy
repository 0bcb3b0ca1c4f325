/**
 Admission and byte accounting of the egress proxy
 (apps/backend/deploy/egress/paw_egress.py: `_handle`, `_refuse`, `_serve`,
 `_report_progress`, `_report_rate`, `_Tally`).

 A step is a stretch of one task between two awaits; the tasks of any number of
 connections interleave. How a connection is opened, fails or is cancelled is
 left to the environment.
 */
module Egress {
  import RateLimit

  datatype Way = Up | Down
  datatype Amount = Amount(sent: int, received: int)

  function Of(a: Amount, w: Way): int {
    if w.Up? then a.sent else a.received
  }

  function Add(a: Amount, b: Amount): Amount {
    Amount(a.sent + b.sent, a.received + b.received)
  }

  const NOTHING := Amount(0, 0)

  datatype Outcome = Open | Progress | Refused | Final
  datatype Line = Line(conn: nat, outcome: Outcome, amount: Amount)

  /** Where the handler of a connection is: about to refuse it, opening the
      upstream, copying, closing after the copy, closing after a refusal. */
  datatype Phase = Refusing | Opening | Tunnel | Closing | Leaving | Ended

  /** `counted`: it is in `_active`. The tally: bytes seen, and bytes on lines. */
  datatype Conn = Conn(phase: Phase, counted: bool, seen: Amount, logged: Amount)

  /** `max_connections` and `max_new_per_second`. */
  datatype Limits = Limits(max: nat, maxNew: nat)

  datatype State = State(
    recent: RateLimit.Times, // when the latest connections were admitted
    conns: seq<Conn>,        // by number, which is what `_numbers` hands out
    active: int,
    totals: Amount,
    refused: nat,
    dropped: nat,
    droppedTotal: nat,
    rates: seq<nat>,         // the counts of the `outcome=rate` lines
    log: seq<Line>)

  const START := State([], [], 0, NOTHING, 0, 0, 0, [], [])

  datatype Step =
    | Arrive(now: real, free: bool)     // `free`: a slot of the host could be had
    | Refuse(conn: nat)
    | Leave(conn: nat)
    | Abandon(conn: nat)
    | Establish(conn: nat)
    | EstablishFails(conn: nat)
    | Pump(conn: nat, way: Way, bytes: nat)
    | Report(conn: nat)
    | Close(conn: nat)
    | Finish(conn: nat)
    | ReportRate

  // ----- the steps -----

  /** The copying and progress tasks are there until the closing is over. */
  predicate Carries(p: Phase) {
    p.Tunnel? || p.Closing?
  }

  predicate Enabled(s: State, step: Step) {
    match step
    case Arrive(_, _) => true
    case ReportRate => true
    case Refuse(n) => n < |s.conns| && s.conns[n].phase in {Refusing, Opening}
    case Leave(n) => n < |s.conns| && s.conns[n].phase == Leaving
    case Abandon(n) => n < |s.conns| && s.conns[n].phase in {Refusing, Opening, Leaving}
    case Establish(n) => n < |s.conns| && s.conns[n].phase == Opening
    case EstablishFails(n) => n < |s.conns| && s.conns[n].phase == Opening
    case Pump(n, _, _) => n < |s.conns| && Carries(s.conns[n].phase)
    case Report(n) => n < |s.conns| && Carries(s.conns[n].phase)
    case Close(n) => n < |s.conns| && s.conns[n].phase == Tunnel
    case Finish(n) => n < |s.conns| && s.conns[n].phase == Closing
  }

  /** `_Tally.delta`: what the lines have not carried yet. */
  function Delta(c: Conn): Amount {
    Amount(c.seen.sent - c.logged.sent, c.seen.received - c.logged.received)
  }

  function Put(s: State, n: nat, c: Conn): State
    requires n < |s.conns|
  {
    s.(conns := s.conns[n := c])
  }

  function Log(s: State, n: nat, outcome: Outcome, amount: Amount): State {
    s.(log := s.log + [Line(n, outcome, amount)])
  }

  /** The handler is over: the `finally` of `_handle`. */
  function Gone(s: State, n: nat): State
    requires n < |s.conns|
  {
    Put(s, n, s.conns[n].(phase := Ended)).(active := s.active - if s.conns[n].counted then 1 else 0)
  }

  function Apply(s: State, lim: Limits, step: Step): State
    requires Enabled(s, step)
  {
    match step
    case Arrive(now, free) =>
      var t := s.(recent := RateLimit.After(s.recent, lim.maxNew, now));
      if RateLimit.TooFast(s.recent, lim.maxNew, now) then
        t.(dropped := s.dropped + 1, droppedTotal := s.droppedTotal + 1)
      else if s.active >= lim.max || !free then
        t.(conns := s.conns + [Conn(Refusing, false, NOTHING, NOTHING)])
      else
        t.(conns := s.conns + [Conn(Opening, true, NOTHING, NOTHING)], active := s.active + 1)
    case Refuse(n) =>
      Log(Put(s, n, s.conns[n].(phase := Leaving)), n, Refused, NOTHING).(refused := s.refused + 1)
    case Leave(n) => Gone(s, n)
    case Abandon(n) => Gone(s, n)
    case Establish(n) => Log(Put(s, n, s.conns[n].(phase := Tunnel)), n, Open, NOTHING)
    case EstablishFails(n) => Put(s, n, s.conns[n].(phase := Closing))
    case Pump(n, w, bytes) =>
      var c := s.conns[n];
      Put(s, n, c.(seen := Add(c.seen, if w.Up? then Amount(bytes, 0) else Amount(0, bytes))))
    case Report(n) =>
      var c := s.conns[n];
      Log(Put(s, n, c.(logged := c.seen)), n, Progress, Delta(c))
    case Close(n) => Put(s, n, s.conns[n].(phase := Closing))
    case Finish(n) =>
      var c := s.conns[n];
      Gone(Log(Put(s, n, c.(logged := c.seen)), n, Final, Delta(c)).(totals := Add(s.totals, c.seen)), n)
    case ReportRate =>
      if s.dropped == 0 then s else s.(rates := s.rates + [s.dropped], dropped := 0)
  }

  ghost predicate IsRun(states: seq<State>, lim: Limits, steps: seq<Step>) {
    |states| == |steps| + 1 && states[0] == START
    && forall i :: 0 <= i < |steps| ==> Enabled(states[i], steps[i]) && states[i + 1] == Apply(states[i], lim, steps[i])
  }

  class EgressProxy {
    const lim: Limits
    const limiter: RateLimit.Limiter
    var conns: seq<Conn>
    var active: int
    var totals: Amount
    var refused: nat
    var dropped: nat
    var droppedTotal: nat
    var rates: seq<nat>
    var log: seq<Line>

    constructor (lim: Limits)
      ensures Model() == START && this.lim == lim && fresh(limiter) && limiter.max == lim.maxNew
    {
      this.lim := lim;
      limiter := new RateLimit.Limiter(lim.maxNew);
      conns, active, totals, refused, log := [], 0, NOTHING, 0, [];
      dropped, droppedTotal, rates := 0, 0, [];
    }

    ghost function Model(): State
      reads this, limiter
    {
      State(limiter.recent, conns, active, totals, refused, dropped, droppedTotal, rates, log)
    }

    /** `_handle`, up to its first await. */
    method Accept(now: real, free: bool)
      requires limiter.max == lim.maxNew
      modifies this, limiter
      ensures Model() == Apply(old(Model()), lim, Arrive(now, free))
    {
      var tooFast := limiter.Ask(now);
      if tooFast {
        dropped := dropped + 1;
        droppedTotal := droppedTotal + 1;
        return;
      }
      if active >= lim.max || !free {
        conns := conns + [Conn(Refusing, false, NOTHING, NOTHING)];
        return;
      }
      active := active + 1;
      conns := conns + [Conn(Opening, true, NOTHING, NOTHING)];
    }

    /** `_Tally.delta`. */
    method TakeDelta(n: nat) returns (delta: Amount)
      requires n < |conns|
      modifies this`conns
      ensures delta == Delta(old(conns)[n])
      ensures conns == old(conns)[n := old(conns)[n].(logged := old(conns)[n].seen)]
    {
      var c := conns[n];
      delta := Amount(c.seen.sent - c.logged.sent, c.seen.received - c.logged.received);
      conns := conns[n := c.(logged := c.seen)];
    }

    /** `_report_progress`, one turn. */
    method ReportProgress(n: nat)
      requires Enabled(Model(), Report(n))
      modifies this
      ensures Model() == Apply(old(Model()), lim, Report(n))
    {
      var delta := TakeDelta(n);
      log := log + [Line(n, Progress, delta)];
    }

    /** The end of `_serve`'s and `_handle`'s `finally`, once both sides are closed. */
    method FinishTunnel(n: nat)
      requires Enabled(Model(), Finish(n))
      modifies this
      ensures Model() == Apply(old(Model()), lim, Finish(n))
    {
      totals := Add(totals, conns[n].seen);
      var delta := TakeDelta(n);
      log := log + [Line(n, Final, delta)];
      if conns[n].counted {
        active := active - 1;
      }
      conns := conns[n := conns[n].(phase := Ended)];
    }

    /** `_report_rate`. */
    method ReportDropped()
      modifies this
      ensures Model() == Apply(old(Model()), lim, ReportRate)
    {
      if dropped > 0 {
        rates := rates + [dropped];
        dropped := 0;
      }
    }
  }

  // ----- sums -----

  /** The bytes on the lines of one connection. */
  ghost function OnLines(log: seq<Line>, n: nat, w: Way): int {
    if log == [] then 0
    else
      var last := log[|log| - 1];
      OnLines(log[..|log| - 1], n, w) + if last.conn == n then Of(last.amount, w) else 0
  }

  /** The bytes on all lines. */
  ghost function OnAllLines(log: seq<Line>, w: Way): int {
    if log == [] then 0 else OnAllLines(log[..|log| - 1], w) + Of(log[|log| - 1].amount, w)
  }

  ghost function Total(rates: seq<nat>): nat {
    if rates == [] then 0 else Total(rates[..|rates| - 1]) + rates[|rates| - 1]
  }

  /** The bytes pumped on one connection in the first `k` steps. */
  ghost function Pumped(steps: seq<Step>, k: nat, n: nat, w: Way): nat
    requires k <= |steps|
  {
    if k == 0 then 0
    else Pumped(steps, k - 1, n, w)
         + if steps[k - 1].Pump? && steps[k - 1].conn == n && steps[k - 1].way == w then steps[k - 1].bytes else 0
  }

  ghost function PumpedInAll(steps: seq<Step>, k: nat, w: Way): nat
    requires k <= |steps|
  {
    if k == 0 then 0
    else PumpedInAll(steps, k - 1, w)
         + if steps[k - 1].Pump? && steps[k - 1].way == w then steps[k - 1].bytes else 0
  }

  ghost function Arrivals(steps: seq<Step>, k: nat): nat
    requires k <= |steps|
  {
    if k == 0 then 0 else Arrivals(steps, k - 1) + if steps[k - 1].Arrive? then 1 else 0
  }

  ghost function Sum(conns: seq<Conn>, f: Conn -> int): int {
    if conns == [] then 0 else Sum(conns[..|conns| - 1], f) + f(conns[|conns| - 1])
  }

  lemma {:induction false} SumOfUpdate(conns: seq<Conn>, f: Conn -> int, n: nat, c: Conn)
    requires n < |conns|
    ensures Sum(conns[n := c], f) == Sum(conns, f) - f(conns[n]) + f(c)
    decreases |conns|
  {
    var m := |conns| - 1;
    if n < m {
      SumOfUpdate(conns[..m], f, n, c);
      assert conns[n := c][..m] == conns[..m][n := c];
    } else {
      assert conns[n := c][..m] == conns[..m];
    }
  }

  lemma SumOfMore(conns: seq<Conn>, f: Conn -> int, c: Conn)
    ensures Sum(conns + [c], f) == Sum(conns, f) + f(c)
  {
    assert (conns + [c])[..|conns|] == conns;
  }

  ghost function Seen(w: Way): Conn -> int {
    (c: Conn) => Of(c.seen, w)
  }

  ghost function Logged(w: Way): Conn -> int {
    (c: Conn) => Of(c.logged, w)
  }

  ghost function Settled(w: Way): Conn -> int {
    (c: Conn) => if c.phase.Ended? then Of(c.seen, w) else 0
  }

  ghost function Served(): Conn -> int {
    (c: Conn) => if c.counted && !c.phase.Ended? then 1 else 0
  }

  ghost function Refusals(log: seq<Line>): nat {
    if log == [] then 0 else Refusals(log[..|log| - 1]) + if log[|log| - 1].outcome.Refused? then 1 else 0
  }

  lemma LineAdded(log: seq<Line>, line: Line, n: nat, w: Way)
    ensures OnLines(log + [line], n, w) == OnLines(log, n, w) + if line.conn == n then Of(line.amount, w) else 0
    ensures OnAllLines(log + [line], w) == OnAllLines(log, w) + Of(line.amount, w)
    ensures Refusals(log + [line]) == Refusals(log) + if line.outcome.Refused? then 1 else 0
  {
    assert (log + [line])[..|log|] == log;
  }

  // ----- what every step keeps -----

  ghost predicate ConnOk(s: State, n: nat, w: Way) {
    if n >= |s.conns| then OnLines(s.log, n, w) == 0
    else
      var c := s.conns[n];
      OnLines(s.log, n, w) == Of(c.logged, w) <= Of(c.seen, w)
      && (c.phase.Ended? ==> c.logged == c.seen)
      && (!c.phase.Ended? && !Carries(c.phase) ==> c.seen == c.logged == NOTHING)
  }

  ghost function SeenOf(s: State, n: nat, w: Way): int {
    if n < |s.conns| then Of(s.conns[n].seen, w) else 0
  }

  ghost function PumpedBy(step: Step, n: nat, w: Way): nat {
    if step.Pump? && step.conn == n && step.way == w then step.bytes else 0
  }

  predicate Logs(step: Step) {
    step.Refuse? || step.Establish? || step.Report? || step.Finish?
  }

  lemma ConnLogs(s: State, lim: Limits, step: Step, n: nat, w: Way)
    requires Enabled(s, step) && ConnOk(s, n, w) && Logs(step)
    ensures var t := Apply(s, lim, step); ConnOk(t, n, w) && SeenOf(t, n, w) == SeenOf(s, n, w)
  {
    var m, t := step.conn, Apply(s, lim, step);
    var line := t.log[|s.log|];
    assert t.log == s.log + [line] && line.conn == m;
    LineAdded(s.log, line, n, w);
    assert |t.conns| == |s.conns| && (n < |s.conns| && n != m ==> t.conns[n] == s.conns[n]);
  }

  lemma ConnKeeps(s: State, lim: Limits, step: Step, n: nat, w: Way)
    requires Enabled(s, step) && ConnOk(s, n, w)
    ensures var t := Apply(s, lim, step);
            ConnOk(t, n, w) && SeenOf(t, n, w) == SeenOf(s, n, w) + PumpedBy(step, n, w)
  {
    if Logs(step) {
      ConnLogs(s, lim, step, n, w);
    } else {
      assert Apply(s, lim, step).log == s.log;
    }
  }

  ghost predicate SumsOk(s: State, lim: Limits, w: Way) {
    Sum(s.conns, Settled(w)) == Of(s.totals, w)
    && Sum(s.conns, Logged(w)) == OnAllLines(s.log, w)
    && Sum(s.conns, Served()) == s.active <= lim.max
    && Refusals(s.log) == s.refused
    && Total(s.rates) + s.dropped == s.droppedTotal
  }

  lemma PutSums(conns: seq<Conn>, n: nat, c: Conn, w: Way)
    requires n < |conns|
    ensures Sum(conns[n := c], Settled(w)) == Sum(conns, Settled(w)) - Settled(w)(conns[n]) + Settled(w)(c)
    ensures Sum(conns[n := c], Logged(w)) == Sum(conns, Logged(w)) - Of(conns[n].logged, w) + Of(c.logged, w)
    ensures Sum(conns[n := c], Seen(w)) == Sum(conns, Seen(w)) - Of(conns[n].seen, w) + Of(c.seen, w)
    ensures Sum(conns[n := c], Served()) == Sum(conns, Served()) - Served()(conns[n]) + Served()(c)
  {
    SumOfUpdate(conns, Settled(w), n, c);
    SumOfUpdate(conns, Logged(w), n, c);
    SumOfUpdate(conns, Seen(w), n, c);
    SumOfUpdate(conns, Served(), n, c);
  }

  lemma NewSums(conns: seq<Conn>, c: Conn, w: Way)
    ensures Sum(conns + [c], Settled(w)) == Sum(conns, Settled(w)) + Settled(w)(c)
    ensures Sum(conns + [c], Logged(w)) == Sum(conns, Logged(w)) + Of(c.logged, w)
    ensures Sum(conns + [c], Seen(w)) == Sum(conns, Seen(w)) + Of(c.seen, w)
    ensures Sum(conns + [c], Served()) == Sum(conns, Served()) + Served()(c)
  {
    SumOfMore(conns, Settled(w), c);
    SumOfMore(conns, Logged(w), c);
    SumOfMore(conns, Seen(w), c);
    SumOfMore(conns, Served(), c);
  }

  lemma ArrivalKeeps(s: State, lim: Limits, step: Step, w: Way)
    requires step.Arrive? && SumsOk(s, lim, w)
    ensures var t := Apply(s, lim, step); SumsOk(t, lim, w) && Sum(t.conns, Seen(w)) == Sum(s.conns, Seen(w))
  {
    NewSums(s.conns, Conn(Refusing, false, NOTHING, NOTHING), w);
    NewSums(s.conns, Conn(Opening, true, NOTHING, NOTHING), w);
  }

  lemma RateKeeps(s: State, lim: Limits, w: Way)
    requires SumsOk(s, lim, w)
    ensures SumsOk(Apply(s, lim, ReportRate), lim, w)
  {
    assert (s.rates + [s.dropped])[..|s.rates|] == s.rates;
  }

  lemma MoveKeeps(s: State, lim: Limits, step: Step, w: Way)
    requires !step.Arrive? && !step.ReportRate? && Enabled(s, step) && SumsOk(s, lim, w) && ConnOk(s, step.conn, w)
    requires !Logs(step)
    ensures var t := Apply(s, lim, step);
            SumsOk(t, lim, w) && Sum(t.conns, Seen(w)) == Sum(s.conns, Seen(w)) + PumpedBy(step, step.conn, w)
  {
    var n, t := step.conn, Apply(s, lim, step);
    assert t.conns == s.conns[n := t.conns[n]];
    PutSums(s.conns, n, t.conns[n], w);
  }

  /** A connection goes from `s.conns[n]` to `c`, not ended, with a line for what it
      has logged meanwhile. */
  lemma LineKeeps(s: State, t: State, lim: Limits, n: nat, c: Conn, line: Line, w: Way)
    requires SumsOk(s, lim, w) && n < |s.conns|
    requires t == s.(conns := s.conns[n := c], log := s.log + [line],
                     refused := s.refused + if line.outcome.Refused? then 1 else 0)
    requires !s.conns[n].phase.Ended? && !c.phase.Ended? && c.counted == s.conns[n].counted && c.seen == s.conns[n].seen
    requires Of(line.amount, w) == Of(c.logged, w) - Of(s.conns[n].logged, w)
    ensures SumsOk(t, lim, w) && Sum(t.conns, Seen(w)) == Sum(s.conns, Seen(w))
  {
    PutSums(s.conns, n, c, w);
    LineAdded(s.log, line, n, w);
  }

  lemma LogKeeps(s: State, lim: Limits, step: Step, w: Way)
    requires Logs(step) && !step.Finish? && Enabled(s, step) && SumsOk(s, lim, w) && ConnOk(s, step.conn, w)
    ensures var t := Apply(s, lim, step); SumsOk(t, lim, w) && Sum(t.conns, Seen(w)) == Sum(s.conns, Seen(w))
  {
    var n, t := step.conn, Apply(s, lim, step);
    var c := s.conns[n];
    match step
    case Refuse(_) => LineKeeps(s, t, lim, n, c.(phase := Leaving), Line(n, Refused, NOTHING), w);
    case Establish(_) => LineKeeps(s, t, lim, n, c.(phase := Tunnel), Line(n, Open, NOTHING), w);
    case Report(_) => LineKeeps(s, t, lim, n, c.(logged := c.seen), Line(n, Progress, Delta(c)), w);
  }

  lemma FinishKeeps(s: State, lim: Limits, step: Step, w: Way)
    requires step.Finish? && Enabled(s, step) && SumsOk(s, lim, w) && ConnOk(s, step.conn, w)
    ensures var t := Apply(s, lim, step); SumsOk(t, lim, w) && Sum(t.conns, Seen(w)) == Sum(s.conns, Seen(w))
  {
    var n, t := step.conn, Apply(s, lim, step);
    assert t.conns == s.conns[n := t.conns[n]];
    PutSums(s.conns, n, t.conns[n], w);
    LineAdded(s.log, Line(n, Final, Delta(s.conns[n])), n, w);
  }

  lemma StepKeepsSums(s: State, lim: Limits, step: Step, w: Way)
    requires Enabled(s, step) && SumsOk(s, lim, w)
    requires step.Arrive? || step.ReportRate? || ConnOk(s, step.conn, w)
    ensures var t := Apply(s, lim, step);
            SumsOk(t, lim, w)
            && Sum(t.conns, Seen(w)) == Sum(s.conns, Seen(w)) + (if step.Pump? && step.way == w then step.bytes else 0)
  {
    if step.Arrive? { ArrivalKeeps(s, lim, step, w); }
    else if step.ReportRate? { RateKeeps(s, lim, w); }
    else if step.Finish? { FinishKeeps(s, lim, step, w); }
    else if Logs(step) { LogKeeps(s, lim, step, w); }
    else { MoveKeeps(s, lim, step, w); }
  }

  lemma StepCounts(s: State, lim: Limits, step: Step)
    requires Enabled(s, step)
    ensures var t := Apply(s, lim, step);
            |t.conns| + t.droppedTotal == |s.conns| + s.droppedTotal + if step.Arrive? then 1 else 0
  {
  }

  // ----- every run -----

  lemma {:induction false} RunKeepsConn(states: seq<State>, lim: Limits, steps: seq<Step>, k: nat, n: nat, w: Way)
    requires IsRun(states, lim, steps) && k <= |steps|
    ensures ConnOk(states[k], n, w) && SeenOf(states[k], n, w) == Pumped(steps, k, n, w)
  {
    if k > 0 {
      RunKeepsConn(states, lim, steps, k - 1, n, w);
      ConnKeeps(states[k - 1], lim, steps[k - 1], n, w);
    }
  }

  lemma {:induction false} RunKeepsSums(states: seq<State>, lim: Limits, steps: seq<Step>, k: nat, w: Way)
    requires IsRun(states, lim, steps) && k <= |steps|
    ensures SumsOk(states[k], lim, w) && Sum(states[k].conns, Seen(w)) == PumpedInAll(steps, k, w)
    ensures Arrivals(steps, k) == |states[k].conns| + states[k].droppedTotal
  {
    if k > 0 {
      RunKeepsSums(states, lim, steps, k - 1, w);
      var s, step := states[k - 1], steps[k - 1];
      if !step.Arrive? && !step.ReportRate? { RunKeepsConn(states, lim, steps, k - 1, step.conn, w); }
      StepKeepsSums(s, lim, step, w);
      StepCounts(s, lim, step);
    }
  }

  /** At every moment, the bytes on a connection's lines and those not on a line yet
      are the bytes pumped on it, in each direction. */
  lemma LinesAndRemainder(states: seq<State>, lim: Limits, steps: seq<Step>, k: nat, n: nat, w: Way)
    requires IsRun(states, lim, steps) && k <= |steps| && n < |states[k].conns|
    ensures OnLines(states[k].log, n, w) + Of(Delta(states[k].conns[n]), w) == Pumped(steps, k, n, w)
    ensures Of(Delta(states[k].conns[n]), w) >= 0
  {
    RunKeepsConn(states, lim, steps, k, n, w);
  }

  /** When a tunnel reaches its final line, its lines sum to what is added to the
      totals, which is what was pumped. */
  lemma FinalLineIsExact(states: seq<State>, lim: Limits, steps: seq<Step>, k: nat, w: Way)
    requires IsRun(states, lim, steps) && k < |steps| && steps[k].Finish?
    ensures var n, added := steps[k].conn, Of(states[k + 1].totals, w) - Of(states[k].totals, w);
            OnLines(states[k + 1].log, n, w) == added == Pumped(steps, k, n, w)
  {
    var n := steps[k].conn;
    RunKeepsConn(states, lim, steps, k, n, w);
    RunKeepsConn(states, lim, steps, k + 1, n, w);
  }

  /** When every handler is over, the summary's totals are the sum of all lines ever
      written and of all bytes ever pumped; its counts are those of the refusal lines,
      of the rate lines and of the arrivals. */
  lemma SummaryIsExact(states: seq<State>, lim: Limits, steps: seq<Step>, k: nat, w: Way)
    requires IsRun(states, lim, steps) && k <= |steps|
    requires forall n :: 0 <= n < |states[k].conns| ==> states[k].conns[n].phase.Ended?
    ensures var s := states[k];
            Of(s.totals, w) == OnAllLines(s.log, w) == PumpedInAll(steps, k, w)
            && s.active == 0 && s.refused == Refusals(s.log)
            && Total(s.rates) + s.dropped + |s.conns| == Arrivals(steps, k)
  {
    RunKeepsSums(states, lim, steps, k, w);
    var conns := states[k].conns;
    forall n | 0 <= n < |conns| ensures Of(conns[n].logged, w) == Of(conns[n].seen, w) {
      RunKeepsConn(states, lim, steps, k, n, w);
    }
    SumsAgree(conns, w);
  }

  lemma {:induction false} SumsAgree(conns: seq<Conn>, w: Way)
    requires forall n :: 0 <= n < |conns| ==> conns[n].phase.Ended? && Of(conns[n].logged, w) == Of(conns[n].seen, w)
    ensures Sum(conns, Settled(w)) == Sum(conns, Logged(w)) == Sum(conns, Seen(w)) && Sum(conns, Served()) == 0
    decreases |conns|
  {
    if conns != [] { SumsAgree(conns[..|conns| - 1], w); }
  }

  /** When the connections of the first `k` steps arrived. */
  ghost function Times(steps: seq<Step>, k: nat): RateLimit.Times
    requires k <= |steps|
  {
    if k == 0 then [] else Times(steps, k - 1) + if steps[k - 1].Arrive? then [steps[k - 1].now] else []
  }

  lemma {:induction false} RecentIs(states: seq<State>, lim: Limits, steps: seq<Step>, k: nat)
    requires IsRun(states, lim, steps) && k <= |steps|
    ensures states[k].recent == RateLimit.Recent(Times(steps, k), lim.maxNew)
  {
    if k > 0 {
      RecentIs(states, lim, steps, k - 1);
      var before := Times(steps, k - 1);
      if steps[k - 1].Arrive? {
        assert (before + [steps[k - 1].now])[..|before|] == before;
      } else {
        assert before + [] == before;
        StaysRecent(states[k - 1], lim, steps[k - 1]);
      }
    }
  }

  lemma StaysRecent(s: State, lim: Limits, step: Step)
    requires Enabled(s, step) && !step.Arrive?
    ensures Apply(s, lim, step).recent == s.recent
  {
  }

  /** What becomes of an arrival. It is dropped, and only counted, exactly if as many were
      admitted within the second before as are allowed. Otherwise it gets the next number
      and is served exactly if fewer are being served than allowed and the host has a slot;
      if not, it is refused. */
  lemma ArrivalIs(states: seq<State>, lim: Limits, steps: seq<Step>, k: nat)
    requires IsRun(states, lim, steps) && k < |steps| && steps[k].Arrive?
    requires RateLimit.Sorted(Times(steps, k)) && forall i :: 0 <= i < |Times(steps, k)| ==> Times(steps, k)[i] <= steps[k].now
    ensures var s, t := states[k], states[k + 1];
            var earlier := RateLimit.Admitted(Times(steps, k), lim.maxNew);
            if RateLimit.Within(earlier, steps[k].now) >= lim.maxNew then
              t == s.(recent := t.recent, dropped := s.dropped + 1, droppedTotal := s.droppedTotal + 1)
            else
              var served := Sum(s.conns, Served()) < lim.max && steps[k].free;
              && t.conns == s.conns + [Conn(if served then Opening else Refusing, served, NOTHING, NOTHING)]
              && t.active == s.active + (if served then 1 else 0)
              && t.dropped == s.dropped && t.droppedTotal == s.droppedTotal
  {
    RecentIs(states, lim, steps, k);
    RunKeepsSums(states, lim, steps, k, Up);
    RateLimit.DroppedIff(Times(steps, k), lim.maxNew, steps[k].now);
  }

  /** Never more connections are served at once than allowed. */
  lemma ServedAreBounded(states: seq<State>, lim: Limits, steps: seq<Step>, k: nat)
    requires IsRun(states, lim, steps) && k <= |steps|
    ensures Sum(states[k].conns, Served()) == states[k].active <= lim.max
  {
    RunKeepsSums(states, lim, steps, k, Up);
  }
}

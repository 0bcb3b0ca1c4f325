/**
 The event-sourced stopwatch for human corrections
 (benchmarks/human_correction.py: `replay`, `_apply`, `Session`).

 Times are whole milliseconds, the precision the log is written with.
 */
module Stopwatch {
  import opened Options

  const CAP_MS: int := 60 * 60 * 1000

  datatype Kind = Start | Pause | Resume | Finish | Abandon | Unchanged

  /** A decoded line; a field is `None` when it is missing or not a string. */
  datatype Event = Event(
    kind: Kind, session: Option<string>, at: int,
    task: Option<string>, model: Option<string>, run: Option<string>)

  datatype Phase = Running | Paused | Closed

  datatype Session = Session(
    id: string, task: string, model: string, run: string,
    started: int, phase: Phase, active: int, pauses: nat,
    ended: Option<int>, end: Option<Kind>, since: Option<int>)
  {
    /** `elapsed_ms`. */
    function Elapsed(now: int): int {
      if phase.Running? && since.Some? then active + (now - since.value) else active
    }

    function Outcome(): Option<Verdict> {
      if end.None? then None
      else if end.value.Unchanged? then Some(Verdict.AsIs)
      else if active > CAP_MS then Some(Verdict.Capped)
      else Some(if end.value.Finish? then Verdict.Accepted else Verdict.Abandoned)
    }

    /** `human_correction_ms`. */
    function Metric(): Option<int> {
      match Outcome()
      case None => None
      case Some(AsIs) => Some(0)
      case Some(Accepted) => Some(active)
      case Some(_) => Some(CAP_MS)
    }
  }

  datatype Verdict = Accepted | AsIs | Capped | Abandoned

  datatype Refusal =
    | NotAnEvent | Backwards | BadName | WrongSession | Recorded | Unknown
    | AlreadyClosed | NotRunning | NotPaused

  // ----- the code -----

  /** What `str.strip` removes. */
  predicate IsSpace(c: char) {
    || '\t' <= c <= '\r' || '\U{1c}' <= c <= ' ' || c == '\U{85}' || c == '\U{a0}' || c == '\U{1680}'
    || '\U{2000}' <= c <= '\U{200a}' || c == '\U{2028}' || c == '\U{2029}' || c == '\U{202f}'
    || c == '\U{205f}' || c == '\U{3000}'
  }

  predicate Blank(s: string) {
    forall i :: 0 <= i < |s| ==> IsSpace(s[i])
  }

  /** `_name`. */
  predicate ValidName(name: Option<string>) {
    name.Some? && !Blank(name.value) && '/' !in name.value
  }

  function SessionId(model: string, task: string, run: string): string {
    model + "/" + task + "/" + run
  }

  /** A name ends at the first slash. */
  lemma SlashSplits(a: string, x: string, b: string, y: string)
    requires '/' !in a && '/' !in b && a + "/" + x == b + "/" + y
    ensures a == b && x == y
  {
    var s := a + "/" + x;
    assert s[|a|] == '/' && s[|b|] == '/';
    assert s[..|a|] == a && s[..|b|] == b && s[|a| + 1..] == x && s[|b| + 1..] == y;
  }

  /** What the ban on slashes is for: different tasks, models or runs never share a session. */
  lemma SessionIdsAreUnique(m: string, t: string, r: string, n: string, u: string, q: string)
    requires ValidName(Some(m)) && ValidName(Some(t)) && ValidName(Some(r))
    requires ValidName(Some(n)) && ValidName(Some(u)) && ValidName(Some(q))
    ensures SessionId(m, t, r) == SessionId(n, u, q) <==> m == n && t == u && r == q
  {
    if SessionId(m, t, r) == SessionId(n, u, q) {
      assert SessionId(m, t, r) == m + "/" + (t + "/" + r) && SessionId(n, u, q) == n + "/" + (u + "/" + q);
      SlashSplits(m, t + "/" + r, n, u + "/" + q);
      SlashSplits(t, r, u, q);
    }
  }

  /** A `start` or `unchanged` event of a session not seen before. */
  function Opened(e: Event): Result<Session, Refusal> {
    if !ValidName(e.task) || !ValidName(e.model) || !ValidName(e.run) then Err(BadName)
    else if e.session != Some(SessionId(e.model.value, e.task.value, e.run.value)) then Err(WrongSession)
    else
      var s := Session(e.session.value, e.task.value, e.model.value, e.run.value,
                       e.at, Running, 0, 0, None, None, Some(e.at));
      Ok(if e.kind.Unchanged? then s.(phase := Closed, ended := Some(e.at), end := Some(Unchanged)) else s)
  }

  /** `_apply`. */
  function Applied(s: Session, kind: Kind, at: int): Result<Session, Refusal> {
    if s.phase.Closed? then Err(AlreadyClosed)
    else match kind
      case Pause =>
        if !s.phase.Running? || s.since.None? then Err(NotRunning)
        else Ok(s.(active := s.active + (at - s.since.value), phase := Paused, since := None, pauses := s.pauses + 1))
      case Resume =>
        if !s.phase.Paused? then Err(NotPaused) else Ok(s.(phase := Running, since := Some(at)))
      case _ =>
        Ok(s.(active := s.Elapsed(at), phase := Closed, since := None, ended := Some(at), end := Some(kind)))
  }

  /** What an event does to its own session. */
  function Next(cur: Option<Session>, e: Event): Result<Session, Refusal> {
    if e.kind.Start? || e.kind.Unchanged? then
      var s := Opened(e);
      if s.Err? then s else if cur.Some? then Err(Recorded) else s
    else if cur.None? then Err(Unknown)
    else Applied(cur.value, e.kind, e.at)
  }

  type Sessions = map<string, Session>

  datatype Log = Log(sessions: Sessions, previous: Option<int>)

  function Lookup(m: Sessions, name: Option<string>): Option<Session> {
    if name.Some? && name.value in m then Some(m[name.value]) else None
  }

  /** One turn of the loop of `replay`. */
  function Take(log: Log, e: Event): Result<Log, Refusal> {
    if log.previous.Some? && e.at < log.previous.value then Err(Backwards)
    else match Next(Lookup(log.sessions, e.session), e)
      case Err(x) => Err(x)
      case Ok(s) => Ok(Log(log.sessions[s.id := s], Some(e.at)))
  }

  function Replay(es: seq<Event>): Result<Log, Refusal> {
    if es == [] then Ok(Log(map[], None))
    else
      var before := Replay(es[..|es| - 1]);
      if before.Err? then before else Take(before.value, es[|es| - 1])
  }

  /** `replay` on text lines: blank ones are skipped. */
  method ReplayLines(lines: seq<string>, decode: string -> Option<Event>) returns (r: Result<Log, Refusal>)
    ensures r == Replayed(lines, decode)
  {
    var log := Log(map[], None);
    for i := 0 to |lines|
      invariant Replayed(lines[..i], decode) == Ok(log)
    {
      assert lines[..i + 1][..i] == lines[..i];
      if !Blank(lines[i]) {
        var e := decode(lines[i]);
        var next: Result<Log, Refusal> := if e.None? then Err(NotAnEvent) else Take(log, e.value);
        if next.Err? {
          RefusalStays(lines, decode, i + 1);
          return next;
        }
        log := next.value;
      }
    }
    assert lines[..|lines|] == lines;
    return Ok(log);
  }

  function Replayed(lines: seq<string>, decode: string -> Option<Event>): Result<Log, Refusal> {
    if lines == [] then Ok(Log(map[], None))
    else
      var before := Replayed(lines[..|lines| - 1], decode);
      if before.Err? then before else Line(before.value, lines[|lines| - 1], decode)
  }

  function Line(log: Log, text: string, decode: string -> Option<Event>): Result<Log, Refusal> {
    if Blank(text) then Ok(log)
    else if decode(text).None? then Err(NotAnEvent)
    else Take(log, decode(text).value)
  }

  lemma {:induction false} RefusalStays(lines: seq<string>, decode: string -> Option<Event>, i: nat)
    requires i <= |lines| && Replayed(lines[..i], decode).Err?
    ensures Replayed(lines, decode) == Replayed(lines[..i], decode)
    decreases |lines| - i
  {
    if i == |lines| {
      assert lines[..i] == lines;
    } else {
      assert lines[..i + 1][..i] == lines[..i];
      RefusalStays(lines, decode, i + 1);
    }
  }

  // ----- sessions are independent -----

  /** The events of one session, in order. */
  function Of(es: seq<Event>, name: string): seq<Event> {
    if es == [] then []
    else
      var rest := Of(es[..|es| - 1], name);
      if es[|es| - 1].session == Some(name) then rest + [es[|es| - 1]] else rest
  }

  /** One session on its own. */
  function Alone(es: seq<Event>): Result<Option<Session>, Refusal> {
    if es == [] then Ok(None)
    else match Alone(es[..|es| - 1])
      case Err(x) => Err(x)
      case Ok(cur) => match Next(cur, es[|es| - 1])
        case Err(x) => Err(x)
        case Ok(s) => Ok(Some(s))
  }

  ghost predicate Nondecreasing(es: seq<Event>) {
    forall i, j :: 0 <= i < j < |es| ==> es[i].at <= es[j].at
  }

  ghost predicate AllNamed(es: seq<Event>) {
    forall i :: 0 <= i < |es| ==> es[i].session.Some?
  }

  ghost predicate EachFine(es: seq<Event>) {
    forall n :: Alone(Of(es, n)).Ok?
  }

  lemma NextKeepsName(cur: Option<Session>, e: Event)
    requires Next(cur, e).Ok? && (cur.Some? ==> Some(cur.value.id) == e.session)
    ensures Some(Next(cur, e).value.id) == e.session
  {
  }

  lemma {:induction false} AloneIsNamed(es: seq<Event>, n: string)
    requires Alone(Of(es, n)).Ok? && Alone(Of(es, n)).value.Some?
    ensures Alone(Of(es, n)).value.value.id == n
  {
    if es != [] {
      var init, e := es[..|es| - 1], es[|es| - 1];
      if e.session == Some(n) {
        assert Of(es, n)[..|Of(es, n)| - 1] == Of(init, n);
        if Alone(Of(init, n)).value.Some? { AloneIsNamed(init, n); }
        NextKeepsName(Alone(Of(init, n)).value, e);
      } else {
        AloneIsNamed(init, n);
      }
    }
  }

  lemma OrderedLast(es: seq<Event>)
    requires es != []
    ensures Nondecreasing(es) <==>
              Nondecreasing(es[..|es| - 1]) && (|es| >= 2 ==> es[|es| - 2].at <= es[|es| - 1].at)
    ensures AllNamed(es) <==> AllNamed(es[..|es| - 1]) && es[|es| - 1].session.Some?
  {
    var init := es[..|es| - 1];
    assert forall i :: 0 <= i < |init| ==> init[i] == es[i];
  }

  /** The last event of a session is applied to what the others made of it. */
  lemma AloneLast(es: seq<Event>, n: string)
    requires es != [] && es[|es| - 1].session == Some(n)
    ensures var before := Alone(Of(es[..|es| - 1], n));
            Alone(Of(es, n)) == if before.Err? then before
                                else match Next(before.value, es[|es| - 1])
                                     case Err(x) => Err(x)
                                     case Ok(s) => Ok(Some(s))
  {
    var own := Of(es, n);
    assert own[..|own| - 1] == Of(es[..|es| - 1], n);
  }

  /** In an accepted log each session is what its own events make of it. */
  lemma {:induction false} ReplayGives(es: seq<Event>, n: string)
    requires Replay(es).Ok?
    ensures Alone(Of(es, n)) == Ok(Lookup(Replay(es).value.sessions, Some(n)))
    ensures Replay(es).value.previous == if es == [] then None else Some(es[|es| - 1].at)
  {
    if es != [] {
      var init, e := es[..|es| - 1], es[|es| - 1];
      ReplayGives(init, n);
      var log := Replay(init).value;
      assert e.session.Some?;
      ReplayGives(init, e.session.value);
      var cur := Lookup(log.sessions, e.session);
      if cur.Some? { AloneIsNamed(init, e.session.value); }
      NextKeepsName(cur, e);
      if e.session == Some(n) { AloneLast(es, n); }
    }
  }

  lemma {:induction false} ReplayIsOrdered(es: seq<Event>)
    requires Replay(es).Ok?
    ensures Nondecreasing(es) && AllNamed(es)
  {
    if es != [] {
      var init := es[..|es| - 1];
      ReplayIsOrdered(init);
      ReplayGives(init, "");
      OrderedLast(es);
    }
  }

  lemma {:induction false} FineIsAccepted(es: seq<Event>)
    requires Nondecreasing(es) && AllNamed(es) && EachFine(es)
    ensures Replay(es).Ok?
  {
    if es != [] {
      var init, e := es[..|es| - 1], es[|es| - 1];
      OrderedLast(es);
      forall n ensures Alone(Of(init, n)).Ok? {
        assert Alone(Of(es, n)).Ok?;
        if e.session == Some(n) { AloneLast(es, n); }
      }
      FineIsAccepted(init);
      var n := e.session.value;
      ReplayGives(init, n);
      assert Alone(Of(es, n)).Ok?;
      AloneLast(es, n);
    }
  }

  /** A log is accepted exactly when its times do not go backwards, every event
      names a session, and each session's own events are acceptable. */
  lemma AcceptedIffEachSessionIs(es: seq<Event>)
    ensures Replay(es).Ok? <==> Nondecreasing(es) && AllNamed(es) && EachFine(es)
  {
    if Replay(es).Ok? {
      ReplayIsOrdered(es);
      forall n ensures Alone(Of(es, n)).Ok? { ReplayGives(es, n); }
    } else if Nondecreasing(es) && AllNamed(es) && EachFine(es) {
      FineIsAccepted(es);
    }
  }

  // ----- projection -----

  lemma {:induction false} OfOf(es: seq<Event>, n: string, m: string)
    ensures Of(Of(es, n), m) == if m == n then Of(es, n) else []
  {
    if es != [] {
      var init, e := es[..|es| - 1], es[|es| - 1];
      OfOf(init, n, m);
      if e.session == Some(n) { assert (Of(init, n) + [e])[..|Of(init, n)|] == Of(init, n); }
    }
  }

  /** An event of a session is an event of the log, at or before its last one. */
  lemma {:induction false} OfIsOrdered(es: seq<Event>, n: string)
    requires Nondecreasing(es)
    ensures Nondecreasing(Of(es, n)) && AllNamed(Of(es, n))
    ensures forall i :: 0 <= i < |Of(es, n)| ==> Of(es, n)[i] in es
  {
    if es != [] {
      var init, e := es[..|es| - 1], es[|es| - 1];
      assert forall i :: 0 <= i < |init| ==> init[i] == es[i];
      OfIsOrdered(init, n);
      forall x | x in init ensures x in es && x.at <= e.at {
        var i :| 0 <= i < |init| && init[i] == x;
        assert es[i] == x;
      }
      assert e in es;
    }
  }

  /** A session in the full replay is the replay of that session's events alone. */
  lemma SessionStandsAlone(es: seq<Event>, n: string)
    requires Replay(es).Ok? && n in Replay(es).value.sessions
    ensures Replay(Of(es, n)).Ok?
    ensures Replay(Of(es, n)).value.sessions == map[n := Replay(es).value.sessions[n]]
  {
    ReplayIsOrdered(es);
    var own := Of(es, n);
    OfIsOrdered(es, n);
    ReplayGives(es, n);
    forall m ensures Alone(Of(own, m)).Ok? { OfOf(es, n, m); }
    FineIsAccepted(own);
    var mine, s := Replay(own).value.sessions, Replay(es).value.sessions[n];
    forall m ensures Lookup(mine, Some(m)) == if m == n then Some(s) else None {
      OfOf(es, n, m);
      ReplayGives(own, m);
    }
    OnlyOne(mine, n, s);
  }

  lemma OnlyOne(mine: Sessions, n: string, s: Session)
    requires forall m :: Lookup(mine, Some(m)) == if m == n then Some(s) else None
    ensures mine == map[n := s]
  {
    forall m ensures m in mine <==> m == n { assert m in mine <==> Lookup(mine, Some(m)).Some?; }
    assert Lookup(mine, Some(n)) == Some(s);
  }

  // ----- the time adds up -----

  predicate Opens(k: Kind) {
    k.Start? || k.Resume?
  }

  /** The time between consecutive events of a session, counted where the event
      before the gap `opens` (active time) or is a pause (paused time). */
  function Gaps(es: seq<Event>, active: bool): int {
    if |es| < 2 then 0
    else
      var a, b := es[|es| - 2], es[|es| - 1];
      Gaps(es[..|es| - 1], active) + if (if active then Opens(a.kind) else a.kind.Pause?) then b.at - a.at else 0
  }

  function Pauses(es: seq<Event>): nat {
    if es == [] then 0 else Pauses(es[..|es| - 1]) + if es[|es| - 1].kind.Pause? then 1 else 0
  }

  /** The state of a session after its own events, in terms of those events. */
  ghost predicate Accounted(s: Session, es: seq<Event>) {
    && es != [] && s.started == es[0].at
    && Some(s.task) == es[0].task && Some(s.model) == es[0].model && Some(s.run) == es[0].run
    && s.pauses == Pauses(es)
    && var last := es[|es| - 1];
       && s.active == Gaps(es, true)
       && (s.phase.Running? <==> Opens(last.kind)) && (s.phase.Paused? <==> last.kind.Pause?)
       && (s.phase.Running? ==> s.since == Some(last.at))
       && (s.phase.Closed? ==> s.ended == Some(last.at) && s.end == Some(last.kind))
       && (!s.phase.Closed? ==> s.ended == None && s.end == None)
       && Gaps(es, true) + Gaps(es, false) == last.at - s.started
  }

  lemma {:induction false} AloneIsAccounted(es: seq<Event>)
    requires Alone(es).Ok? && es != []
    ensures Alone(es).value.Some? && Accounted(Alone(es).value.value, es)
  {
    var init, e := es[..|es| - 1], es[|es| - 1];
    if init != [] {
      AloneIsAccounted(init);
      assert init[|init| - 1] == es[|es| - 2];
    }
  }

  lemma {:induction false} GapsAreNotNegative(es: seq<Event>, active: bool)
    requires Nondecreasing(es)
    ensures Gaps(es, active) >= 0
  {
    if |es| >= 2 {
      var init := es[..|es| - 1];
      assert forall i :: 0 <= i < |init| ==> init[i] == es[i];
      GapsAreNotNegative(init, active);
    }
  }

  /** What a session with these events of its own shows and reports at `now`. */
  ghost predicate AddsUp(s: Session, own: seq<Event>, now: int) {
    && own != [] && s.started == own[0].at
    && Some(s.task) == own[0].task && Some(s.model) == own[0].model && Some(s.run) == own[0].run
    && s.pauses == Pauses(own)
    && s.active == Gaps(own, true) >= 0 && Gaps(own, false) >= 0
    && (s.phase.Closed? ==> s.ended.Some? && Gaps(own, true) + Gaps(own, false) == s.ended.value - s.started)
    && (s.phase.Running? ==> s.Elapsed(now) + Gaps(own, false) == now - s.started)
    && (s.phase.Paused? ==> s.Elapsed(now) == Gaps(own, true))
    && (s.Metric().Some? <==> s.phase.Closed?)
    && (s.Metric().Some? ==> 0 <= s.Metric().value <= CAP_MS)
    && (s.Outcome() == Some(Accepted) <==> s.end == Some(Finish) && s.active <= CAP_MS)
    && (s.Outcome() == Some(Verdict.Abandoned) <==> s.end == Some(Abandon) && s.active <= CAP_MS)
    && (s.Outcome() == Some(Capped) <==> s.end in {Some(Finish), Some(Abandon)} && s.active > CAP_MS)
    && (s.Outcome() == Some(AsIs) <==> s.end == Some(Unchanged))
    && (s.Outcome() == Some(AsIs) ==> s.Metric() == Some(0))
    && (s.Outcome() == Some(Accepted) ==> s.Metric() == Some(Gaps(own, true)))
    && (s.Outcome() == Some(Capped) || s.Outcome() == Some(Verdict.Abandoned) ==> s.Metric() == Some(CAP_MS))
  }

  lemma AccountedAddsUp(s: Session, own: seq<Event>, now: int)
    requires Accounted(s, own) && Nondecreasing(own)
    ensures AddsUp(s, own, now)
  {
    GapsAreNotNegative(own, true);
    GapsAreNotNegative(own, false);
  }

  // ----- which events a session accepts -----

  /** A session begins with a start, or with a single note that nothing was changed, under
      three names and the id made of them. */
  predicate Begins(e: Event) {
    && (e.kind.Start? || e.kind.Unchanged?)
    && e.task.Some? && !Blank(e.task.value) && '/' !in e.task.value
    && e.model.Some? && !Blank(e.model.value) && '/' !in e.model.value
    && e.run.Some? && !Blank(e.run.value) && '/' !in e.run.value
    && e.session == Some(e.model.value + "/" + e.task.value + "/" + e.run.value)
  }

  /** A running one can be paused or closed, a paused one resumed or closed, a closed one
      nothing. */
  predicate MayFollow(a: Kind, b: Kind) {
    match a
    case Start => b.Pause? || b.Finish? || b.Abandon?
    case Resume => b.Pause? || b.Finish? || b.Abandon?
    case Pause => b.Resume? || b.Finish? || b.Abandon?
    case _ => false
  }

  predicate Follows(es: seq<Event>, i: nat) {
    0 < i < |es| ==> MayFollow(es[i - 1].kind, es[i].kind)
  }

  ghost predicate InOrder(es: seq<Event>) {
    (es != [] ==> Begins(es[0])) && forall i: nat :: Follows(es, i)
  }

  lemma InOrderLast(es: seq<Event>)
    requires es != []
    ensures InOrder(es) <==> InOrder(es[..|es| - 1]) && (if |es| == 1 then Begins(es[0]) else Follows(es, |es| - 1))
  {
    var init := es[..|es| - 1];
    assert forall i: nat :: i < |es| - 1 ==> Follows(es, i) == Follows(init, i);
    if InOrder(init) && (if |es| == 1 then Begins(es[0]) else Follows(es, |es| - 1)) {
      forall i: nat ensures Follows(es, i) { assert Follows(init, i); }
    }
    if InOrder(es) {
      forall i: nat ensures Follows(init, i) { assert Follows(es, i); }
    }
  }

  lemma {:induction false} AloneIff(es: seq<Event>)
    ensures Alone(es).Ok? <==> InOrder(es)
  {
    if es != [] {
      var init, e := es[..|es| - 1], es[|es| - 1];
      AloneIff(init);
      InOrderLast(es);
      if Alone(init).Ok? && init != [] { AloneIsAccounted(init); }
    }
  }

  /** A log is accepted exactly when its times do not go backwards, every event names a
      session, and the events of each session are in order. */
  lemma AcceptedIffInOrder(es: seq<Event>)
    ensures Replay(es).Ok? <==> Nondecreasing(es) && AllNamed(es) && forall n :: InOrder(Of(es, n))
  {
    AcceptedIffEachSessionIs(es);
    if EachFine(es) {
      forall n ensures InOrder(Of(es, n)) { assert Alone(Of(es, n)).Ok?; AloneIff(Of(es, n)); }
    } else {
      var n :| !Alone(Of(es, n)).Ok?;
      AloneIff(Of(es, n));
      assert !InOrder(Of(es, n));
    }
  }

  /** For every session of every accepted log: its active time is the time spent
      in stretches that a start or a resume began, active and paused time add up
      to the time from its start to its last event (its end, once finished or
      abandoned), the stopwatch shows exactly that while it runs, and the
      reported metric lies within the cap and equals the active time exactly for
      an accepted correction. */
  lemma TimeAddsUp(es: seq<Event>, n: string, now: int)
    requires Replay(es).Ok? && n in Replay(es).value.sessions
    ensures AddsUp(Replay(es).value.sessions[n], Of(es, n), now)
  {
    ReplayIsOrdered(es);
    OfIsOrdered(es, n);
    ReplayGives(es, n);
    AloneIsAccounted(Of(es, n));
    AccountedAddsUp(Replay(es).value.sessions[n], Of(es, n), now);
  }
}

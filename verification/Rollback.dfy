/**
 Rolling back to an earlier known-good release
 (apps/backend/deploy/release/paw_release.py: `_Rollback`, the choice of the
 target in `Tool.rollback`, `State.mark_known_good`).
 */
module Rollback {
  import opened Options
  import opened Release

  /** `maintenance` and `revision` are what `deploy-status` reported before. */
  datatype Request = Request(
    current: string, target: string, restorePoint: Option<string>,
    head: Option<string>, revision: Option<string>, maintenance: bool)
  {
    function Expected(): Option<string> {
      if restorePoint.Some? then head else revision
    }
  }

  datatype Spot =
    | ToBegin | ToDrain | ToStop | ToRestore | ToSwitch | ToClean | ToStart | ToHealth
    | ToResume(exit: Exit)
    | ToNotify
    | Left(exit: Exit)

  function CommandFor(r: Request, p: Spot): Command {
    match p
    case ToBegin => BeginMaintenance
    case ToDrain => Drain
    case ToStop => Stop
    case ToRestore => RestorePoint(if r.restorePoint.Some? then r.restorePoint.value else "")
    case ToSwitch => Switch(r.target)
    case ToClean => PostRestore
    case ToStart => Start
    case ToHealth => Health(r.target, r.Expected())
    case ToResume(_) => EndMaintenance
    case _ => Notify
  }

  /** A maintenance that was found is not ended by an abort. */
  function NextSpot(r: Request, p: Spot, ok: bool): Spot {
    match p
    case ToBegin => if ok then ToDrain else ToResume(Aborted)
    case ToDrain => if ok then ToStop else if !r.maintenance then ToResume(Aborted) else Left(Aborted)
    case ToStop => if !ok then ToNotify else if r.restorePoint.Some? then ToRestore else ToSwitch
    case ToRestore => if ok then ToSwitch else ToNotify
    case ToSwitch => if r.restorePoint.Some? then ToClean else ToStart
    case ToClean => if ok then ToStart else ToNotify
    case ToStart => if ok then ToHealth else ToNotify
    case ToHealth => if ok then ToResume(Done) else ToNotify
    case ToResume(e) => if ok then Left(e) else ToNotify
    case ToNotify => Left(LeftInMaintenance)
    case Left(_) => p
  }

  datatype Walk = Walk(spot: Spot, world: World, trace: seq<Event>)

  function Advance(r: Request, s: Walk, o: Outcome): Walk
    requires !s.spot.Left?
  {
    var c := CommandFor(r, s.spot);
    var e := Record(s.world, c, o);
    var next := NextSpot(r, s.spot, e.ok);
    var w := After(s.world, c, o);
    Walk(next, if next.Left? && next.exit != LeftInMaintenance then w.(inProgress := None) else w, s.trace + [e])
  }

  function First(r: Request, w: World): Walk {
    Walk(if r.maintenance then ToDrain else ToBegin,
         w.(inProgress := Some(Progress("rollback", r.current, r.target, r.restorePoint))), [])
  }

  function ToGo(p: Spot): nat {
    match p
    case ToBegin => 12 case ToDrain => 11 case ToStop => 10 case ToRestore => 9 case ToSwitch => 8
    case ToClean => 7 case ToStart => 6 case ToHealth => 5 case ToResume(_) => 3 case ToNotify => 2
    case Left(_) => 0
  }

  lemma GoesOn(r: Request, p: Spot, ok: bool)
    requires !p.Left?
    ensures ToGo(NextSpot(r, p, ok)) < ToGo(p)
  {
  }

  function Eventually(r: Request, s: Walk, script: Script): Walk
    decreases ToGo(s.spot)
  {
    if s.spot.Left? then s
    else
      GoesOn(r, s.spot, Record(s.world, CommandFor(r, s.spot), script(|s.trace|)).ok);
      Eventually(r, Advance(r, s, script(|s.trace|)), script)
  }

  // ----- the invariant -----

  predicate BeforeStop(p: Spot) {
    p.ToBegin? || p.ToDrain? || p.ToStop? || p == ToResume(Aborted) || p == Left(Aborted)
  }

  predicate NothingServed(p: Spot) {
    p.ToRestore? || p.ToSwitch? || p.ToClean? || p.ToStart?
  }

  /** What must hold of every event of a rollback. */
  ghost predicate EventFine(r: Request, tr: seq<Event>, i: nat)
    requires i < |tr|
  {
    var e := tr[i];
    && e.progress.Some? && !e.command.Migrate?
    && (e.command.Stop? ==>
          && i >= 1 && tr[i - 1].command == Drain && tr[i - 1].ok
          && (!r.maintenance ==> i == 2 && tr[0].command == BeginMaintenance && tr[0].ok))
    && (e.command.Switch? ==> e.serving == None && e.command.version == r.target)
    && (e.command.RestorePoint? ==>
          && Some(e.command.name) == r.restorePoint && e.serving == None
          && i >= 1 && tr[i - 1].command == Stop && tr[i - 1].ok)
  }

  ghost predicate SpotOk(r: Request, w0: World, s: Walk) {
    var w, tr := s.world, s.trace;
    && (!s.spot.Left? ==> w.inProgress.Some?)
    && (NothingServed(s.spot) ==> w.serving == None)
    && (BeforeStop(s.spot) ==> w.link == w0.link && w.serving == w0.serving && w.db.revision == w0.db.revision)
    && w.knownGood == w0.knownGood
    && match s.spot
       case ToBegin => !r.maintenance && tr == [] && !w.maintenance
       case ToDrain => w.maintenance && if r.maintenance then tr == [] else |tr| == 1 && Ran(tr, 0, BeginMaintenance)
       case ToStop =>
         && w.maintenance && Ran(tr, 0, Drain)
         && (!r.maintenance ==> |tr| == 2 && tr[0].command == BeginMaintenance && tr[0].ok)
       case ToRestore => Ran(tr, 0, Stop) && r.restorePoint.Some?
       case ToSwitch => r.restorePoint.Some? ==> Ran(tr, 0, RestorePoint(r.restorePoint.value))
       case ToClean => w.link == r.target && r.restorePoint.Some? && Ran(tr, 1, RestorePoint(r.restorePoint.value))
       case ToStart => w.link == r.target && (r.restorePoint.Some? ==> Ran(tr, 2, RestorePoint(r.restorePoint.value)))
       case ToHealth =>
         && w.link == r.target && w.serving == Some(r.target)
         && (r.restorePoint.Some? ==> Ran(tr, 3, RestorePoint(r.restorePoint.value)))
       case ToResume(e) => (e == Aborted && !r.maintenance) || (e == Done && Succeeded(r, w, tr, 0))
       case ToNotify => true
       case Left(Aborted) => w.maintenance == w0.maintenance && w.inProgress == None
       case Left(Done) => Succeeded(r, w, tr, 1) && !w.maintenance && w.inProgress == None
       case Left(e) => e == LeftInMaintenance && w.inProgress.Some?
  }

  ghost predicate Succeeded(r: Request, w: World, tr: seq<Event>, back: nat) {
    && w.link == r.target && w.serving == Some(r.target) && w.db.revision == r.Expected()
    && Ran(tr, back, Health(r.target, r.Expected()))
    && (r.restorePoint.Some? ==> Ran(tr, back + 4, RestorePoint(r.restorePoint.value)))
  }

  ghost predicate Calm(s: Walk) {
    BeforeStop(s.spot) ==>
      forall e :: e in s.trace ==> !e.command.Stop? && !e.command.Switch? && !e.command.RestorePoint? && !e.command.Start?
  }

  /** Whether the maintenance was found or its beginning took effect. */
  ghost predicate On(r: Request, tr: seq<Event>) {
    r.maintenance || (tr != [] && tr[0].command == BeginMaintenance && tr[0].took)
  }

  /** The maintenance flag: on as soon as its beginning took effect, off as soon as its
      end took effect. */
  ghost predicate FlagOk(r: Request, p: Spot, w: World, tr: seq<Event>) {
    if p.ToNotify? then
      tr != [] && w.maintenance == (On(r, tr) && !(tr[|tr| - 1].command == EndMaintenance && tr[|tr| - 1].took))
    else if p == Left(LeftInMaintenance) then
      |tr| >= 2 && tr[|tr| - 1].command == Notify
      && w.maintenance == (On(r, tr) && !(tr[|tr| - 2].command == EndMaintenance && tr[|tr| - 2].took))
    else if p.Left? then true
    else w.maintenance == On(r, tr) && (p.ToBegin? <==> tr == [] && !r.maintenance)
  }

  ghost predicate Holds(r: Request, w0: World, s: Walk) {
    SpotOk(r, w0, s) && Calm(s) && FlagOk(r, s.spot, s.world, s.trace) && forall i :: 0 <= i < |s.trace| ==> EventFine(r, s.trace, i)
  }

  lemma RanShifts(tr: seq<Event>, e: Event, back: nat, c: Command)
    ensures Ran(tr, back, c) ==> Ran(tr + [e], back + 1, c)
    ensures Ran(tr + [e], 0, c) <==> e.command == c && e.ok
  {
  }

  lemma BeforeStays(r: Request, w0: World, s: Walk, o: Outcome)
    requires SpotOk(r, w0, s) && (s.spot.ToBegin? || s.spot.ToDrain? || s.spot.ToStop?)
    requires w0.maintenance == r.maintenance
    ensures SpotOk(r, w0, Advance(r, s, o))
  {
  }

  lemma SwitchStays(r: Request, w0: World, s: Walk, o: Outcome)
    requires SpotOk(r, w0, s) && (s.spot.ToRestore? || s.spot.ToSwitch? || s.spot.ToClean?)
    ensures SpotOk(r, w0, Advance(r, s, o))
  {
    if r.restorePoint.Some? {
      RanShifts(s.trace, Record(s.world, CommandFor(r, s.spot), o), if s.spot.ToSwitch? then 0 else 1,
                RestorePoint(r.restorePoint.value));
    }
  }

  lemma StartStays(r: Request, w0: World, s: Walk, o: Outcome)
    requires SpotOk(r, w0, s) && (s.spot.ToStart? || s.spot.ToHealth?)
    ensures SpotOk(r, w0, Advance(r, s, o))
  {
    if r.restorePoint.Some? {
      RanShifts(s.trace, Record(s.world, CommandFor(r, s.spot), o), if s.spot.ToStart? then 2 else 3,
                RestorePoint(r.restorePoint.value));
    }
  }

  lemma ResumeStays(r: Request, w0: World, s: Walk, o: Outcome)
    requires SpotOk(r, w0, s) && s.spot.ToResume? && w0.maintenance == r.maintenance
    ensures SpotOk(r, w0, Advance(r, s, o))
  {
    var e := Record(s.world, EndMaintenance, o);
    if s.spot.exit == Done {
      RanShifts(s.trace, e, 0, Health(r.target, r.Expected()));
      if r.restorePoint.Some? { RanShifts(s.trace, e, 4, RestorePoint(r.restorePoint.value)); }
    }
  }

  lemma NotifyStays(r: Request, w0: World, s: Walk, o: Outcome)
    requires SpotOk(r, w0, s) && s.spot.ToNotify?
    ensures SpotOk(r, w0, Advance(r, s, o))
  {
  }

  lemma SpotStays(r: Request, w0: World, s: Walk, o: Outcome)
    requires SpotOk(r, w0, s) && !s.spot.Left? && w0.maintenance == r.maintenance
    ensures SpotOk(r, w0, Advance(r, s, o))
  {
    if s.spot.ToBegin? || s.spot.ToDrain? || s.spot.ToStop? { BeforeStays(r, w0, s, o); }
    else if s.spot.ToRestore? || s.spot.ToSwitch? || s.spot.ToClean? { SwitchStays(r, w0, s, o); }
    else if s.spot.ToStart? || s.spot.ToHealth? { StartStays(r, w0, s, o); }
    else if s.spot.ToResume? { ResumeStays(r, w0, s, o); }
    else { NotifyStays(r, w0, s, o); }
  }

  lemma CalmStays(r: Request, s: Walk, o: Outcome)
    requires Calm(s) && !s.spot.Left?
    ensures Calm(Advance(r, s, o))
  {
  }

  lemma FlagStays(r: Request, s: Walk, o: Outcome)
    requires !s.spot.Left? && FlagOk(r, s.spot, s.world, s.trace) && s.spot != ToResume(LeftInMaintenance)
    ensures var t := Advance(r, s, o); FlagOk(r, t.spot, t.world, t.trace)
  {
  }

  lemma EventsFine(r: Request, w0: World, s: Walk, o: Outcome)
    requires Holds(r, w0, s) && !s.spot.Left?
    ensures var t := Advance(r, s, o).trace; forall i :: 0 <= i < |t| ==> EventFine(r, t, i)
  {
    var t := Advance(r, s, o).trace;
    assert EventFine(r, t, |s.trace|);
    forall i | 0 <= i < |s.trace| ensures EventFine(r, t, i) { assert EventFine(r, s.trace, i); }
  }

  lemma {:induction false} EventuallyHolds(r: Request, w0: World, s: Walk, script: Script)
    requires Holds(r, w0, s) && w0.maintenance == r.maintenance
    ensures Holds(r, w0, Eventually(r, s, script)) && Eventually(r, s, script).spot.Left?
    decreases ToGo(s.spot)
  {
    if !s.spot.Left? {
      var o := script(|s.trace|);
      SpotStays(r, w0, s, o);
      CalmStays(r, s, o);
      FlagStays(r, s, o);
      EventsFine(r, w0, s, o);
      GoesOn(r, s.spot, Record(s.world, CommandFor(r, s.spot), o).ok);
      EventuallyHolds(r, w0, Advance(r, s, o), script);
    }
  }

  // ----- what the exit code of a rollback says -----

  ghost function Ending(r: Request, w0: World, script: Script): Walk {
    Eventually(r, First(r, w0), script)
  }

  /** For every outcome of every command, given that `deploy-status` told the
      truth about the maintenance: exit 0, the target is current, serves and
      passed its health check at the expected revision, after the restore if one
      was asked for; exit 3, nothing was stopped, switched or restored, and the link,
      the schema revision and the maintenance are as they were found; exit 5, the
      operation is still on record. The known-good list never changes. */
  lemma ExitCodeDescribesRollback(r: Request, w0: World, script: Script)
    requires w0.maintenance == r.maintenance
    ensures var s := Ending(r, w0, script);
            && s.spot.Left? && s.world.knownGood == w0.knownGood
            && match s.spot.exit
               case Done => Succeeded(r, s.world, s.trace, 1) && !s.world.maintenance && s.world.inProgress == None
               case Aborted =>
                 && s.world.link == w0.link && s.world.serving == w0.serving && s.world.db.revision == w0.db.revision
                 && s.world.maintenance == w0.maintenance && s.world.inProgress == None
                 && forall e :: e in s.trace ==> !e.command.Stop? && !e.command.Switch? && !e.command.RestorePoint?
               case e => e == LeftInMaintenance && s.world.inProgress.Some?
  {
    EventuallyHolds(r, w0, First(r, w0), script);
  }

  /** After exit 5 of a rollback the maintenance is on if and only if it was found or its
      beginning took effect, and the last attempt to end it, if any, did not. */
  lemma MaintenanceAfterRollback(r: Request, w0: World, script: Script)
    requires w0.maintenance == r.maintenance
    ensures var s := Ending(r, w0, script);
            s.spot == Left(LeftInMaintenance) ==>
              && |s.trace| >= 2 && s.trace[|s.trace| - 1].command == Notify
              && var last := s.trace[|s.trace| - 2];
                 s.world.maintenance <==> On(r, s.trace) && !(last.command == EndMaintenance && last.took)
  {
    EventuallyHolds(r, w0, First(r, w0), script);
  }

  /** So here too exit 5 can leave no maintenance on. */
  lemma RollbackWithoutMaintenance(r: Request, w0: World)
    requires !r.maintenance && !w0.maintenance
    ensures var s := Ending(r, w0, _ => Outcome(false, false, 0, None, 0));
            s.spot == Left(LeftInMaintenance) && !s.world.maintenance
  {
    var o := Outcome(false, false, 0, None, 0);
    var script: Script := _ => o;
    var s0 := First(r, w0);
    var s1 := Advance(r, s0, o);
    var s2 := Advance(r, s1, o);
    var s3 := Advance(r, s2, o);
    assert s1.spot == ToResume(Aborted) && s2.spot == ToNotify && s3.spot == Left(LeftInMaintenance);
    assert Eventually(r, s0, script) == Eventually(r, s1, script) == Eventually(r, s2, script) == s3;
  }

  /** In every run the stop comes right after a drain that succeeded, in a maintenance
      that was found or begun; a restore runs only right after the release was stopped, the
      link moves only while nothing is served, and nothing is ever migrated. */
  lemma RestoreNeedsStop(r: Request, w0: World, script: Script, i: nat)
    requires w0.maintenance == r.maintenance && i < |Ending(r, w0, script).trace|
    ensures EventFine(r, Ending(r, w0, script).trace, i)
  {
    EventuallyHolds(r, w0, First(r, w0), script);
  }

  // ----- which outcomes lead to which exit code -----

  /** The commands that failed, in order; not the notice at the end. */
  ghost function Failed(tr: seq<Event>): seq<Command> {
    if tr == [] then []
    else
      var e := tr[|tr| - 1];
      Failed(tr[..|tr| - 1]) + if e.ok || e.command.Notify? then [] else [e.command]
  }

  /** What the exit code must be. Nothing failed: 0. Only the beginning of the maintenance
      or the drain failed: 3. Anything else: 5. */
  ghost function RollbackExit(failures: seq<Command>): Exit {
    if failures == [] then Done
    else if |failures| == 1 && (failures[0].BeginMaintenance? || failures[0].Drain?) then Aborted
    else LeftInMaintenance
  }

  ghost predicate FailedOk(p: Spot, failures: seq<Command>) {
    match p
    case ToResume(e) => e != LeftInMaintenance && RollbackExit(failures) == e
    case ToNotify => RollbackExit(failures) == LeftInMaintenance
    case Left(e) => RollbackExit(failures) == e
    case _ => failures == []
  }

  lemma FailedStays(r: Request, s: Walk, o: Outcome)
    requires !s.spot.Left? && FailedOk(s.spot, Failed(s.trace))
    ensures FailedOk(Advance(r, s, o).spot, Failed(Advance(r, s, o).trace))
  {
    var t := Advance(r, s, o);
    assert t.trace[..|t.trace| - 1] == s.trace;
  }

  lemma {:induction false} FailedDecide(r: Request, s: Walk, script: Script)
    requires FailedOk(s.spot, Failed(s.trace))
    ensures var t := Eventually(r, s, script); t.spot.Left? && RollbackExit(Failed(t.trace)) == t.spot.exit
    decreases ToGo(s.spot)
  {
    if !s.spot.Left? {
      var o := script(|s.trace|);
      FailedStays(r, s, o);
      GoesOn(r, s.spot, Record(s.world, CommandFor(r, s.spot), o).ok);
      FailedDecide(r, Advance(r, s, o), script);
    }
  }

  /** The exit code of a rollback is decided by the commands that failed, and by nothing
      else. */
  lemma RollbackExitIsDecided(r: Request, w0: World, script: Script)
    ensures var s := Ending(r, w0, script); s.spot == Left(RollbackExit(Failed(s.trace)))
  {
    FailedDecide(r, First(r, w0), script);
  }

  // ----- the choice of the target -----

  function IndexOf(known: seq<string>, v: string): nat
    ensures IndexOf(known, v) <= |known|
    ensures v in known ==> IndexOf(known, v) < |known| && known[IndexOf(known, v)] == v
  {
    if known == [] || known[0] == v then 0 else 1 + IndexOf(known[1..], v)
  }

  /** The target when none is named: the one that became known good just before
      the current release. */
  function DefaultTarget(known: seq<string>, current: string): Option<string> {
    var earlier := if current in known then known[..IndexOf(known, current)] else known;
    if earlier == [] then None else Some(earlier[|earlier| - 1])
  }

  ghost predicate Distinct(known: seq<string>) {
    forall i, j :: 0 <= i < j < |known| ==> known[i] != known[j]
  }

  lemma {:induction false} WithoutKeeps(known: seq<string>, v: string)
    requires Distinct(known)
    ensures Distinct(Without(known, v)) && v !in Without(known, v)
    ensures forall x :: x in Without(known, v) ==> x in known
    ensures known != [] && known[|known| - 1] != v ==>
              Without(known, v) != [] && Without(known, v)[|Without(known, v)| - 1] == known[|known| - 1]
  {
    if known != [] {
      assert known == [known[0]] + known[1..];
      WithoutKeeps(known[1..], v);
      var t, w := Without(known[1..], v), Without(known, v);
      assert forall x :: x in known[1..] ==> x != known[0];
      if known[0] != v {
        forall i, j | 0 <= i < j < |w| ensures w[i] != w[j] { assert w[j] == t[j - 1] && w[j] in t; }
      }
    }
  }

  /** What became known good after `v`. */
  function Later(known: seq<string>, v: string): seq<string> {
    if known == [] then [] else if known[0] == v then known[1..] else Later(known[1..], v)
  }

  /** Nothing but `target` is in the list. */
  ghost predicate NothingBut(known: seq<string>, target: string) {
    forall i :: 0 <= i < |known| ==> known[i] == target
  }

  lemma {:induction false} AllGone(known: seq<string>, target: string)
    ensures Without(known, target) == [] <==> NothingBut(known, target)
  {
    if known != [] {
      AllGone(known[1..], target);
      assert forall i :: 0 < i < |known| ==> known[i] == known[1..][i - 1];
    }
  }

  ghost predicate OnlyThen(known: seq<string>, target: string, v: string) {
    v in known && NothingBut(Later(known, v), target)
  }

  predicate EndsIn(known: seq<string>, v: string) {
    known != [] && known[|known| - 1] == v
  }

  /** The last release other than `target` is the one that only `target` follows. */
  lemma {:induction false} LastBut(known: seq<string>, target: string, v: string)
    requires Distinct(known) && v != target
    ensures EndsIn(Without(known, target), v) <==> OnlyThen(known, target, v)
  {
    if known != [] {
      LastBut(known[1..], target, v);
      if known[0] == v { LastIsFirst(known, target); } else { LastIsLater(known, target, v); }
    }
  }

  lemma LastIsFirst(known: seq<string>, target: string)
    requires Distinct(known) && known != [] && known[0] != target
    ensures EndsIn(Without(known, target), known[0]) <==> OnlyThen(known, target, known[0])
  {
    var v, rest := known[0], known[1..];
    AllGone(rest, target);
    WithoutKeeps(rest, target);
    var k := Without(rest, target);
    assert Later(known, v) == rest && v !in rest;
    assert k != [] ==> k[|k| - 1] in k;
    assert Without(known, target) == [v] + k;
  }

  lemma LastIsLater(known: seq<string>, target: string, v: string)
    requires known != [] && known[0] != v && v != target
    ensures EndsIn(Without(known, target), v) <==> EndsIn(Without(known[1..], target), v)
    ensures OnlyThen(known, target, v) <==> OnlyThen(known[1..], target, v)
  {
    var k, rest := Without(known[1..], target), known[1..];
    assert EndsIn([known[0]] + k, v) <==> EndsIn(k, v);
    assert known == [known[0]] + rest;
  }

  /** A default rollback after an update goes to the last known-good release other
      than the update's. */
  lemma DefaultAfterUpdate(known: seq<string>, target: string)
    requires Distinct(known)
    ensures Distinct(Marked(known, target))
    ensures var k := Without(known, target);
            DefaultTarget(Marked(known, target), target) == if k == [] then None else Some(k[|k| - 1])
  {
    WithoutKeeps(known, target);
    var k := Without(known, target);
    var m := Marked(known, target);
    assert m[|k|] == target && m[..|k|] == k;
    assert Distinct(m) by {
      forall i, j | 0 <= i < j < |m| ensures m[i] != m[j] {
        if j == |k| { assert m[i] == k[i] && k[i] in k; }
      }
    }
    assert IndexOf(m, target) == |k|;
  }

  /** After an update from `current` to `target`, a rollback with no target named goes
      back to `current`, the release the update replaced, if and only if `current` is
      known good and no other release became so after it. */
  lemma RollbackUndoesUpdate(known: seq<string>, current: string, target: string)
    requires Distinct(known) && current != target
    ensures DefaultTarget(Marked(known, target), target) == Some(current) <==>
            OnlyThen(known, target, current)
  {
    DefaultAfterUpdate(known, target);
    LastBut(known, target, current);
  }

  /** So it need not: from B back to A, then on to C, the default rollback goes to B,
      the release that was left, and not to A, the one C replaced. */
  lemma RollbackAfterRollback()
    ensures var known := ["A", "B"];
            DefaultTarget(known, "B") == Some("A")
            && DefaultTarget(Marked(known, "C"), "C") == Some("B")
  {
    var known := ["A", "B"];
    assert known[1..] == ["B"] && ["B"][1..] == [];
    assert Without([], "C") == [] && Without(["B"], "C") == ["B"] && Without(known, "C") == ["A", "B"];
    DefaultAfterUpdate(known, "C");
    assert IndexOf(["B"], "B") == 0 && IndexOf(known, "B") == 1;
  }

  /** Going back again and again never goes forward: each default target is
      strictly older than the one before, so it ends. */
  lemma DefaultTargetIsOlder(known: seq<string>, current: string)
    requires Distinct(known) && current in known && DefaultTarget(known, current).Some?
    ensures var t := DefaultTarget(known, current).value;
            t in known && IndexOf(known, t) + 1 == IndexOf(known, current)
  {
    var i := IndexOf(known, current);
    assert known[i - 1] == DefaultTarget(known, current).value;
    var j := IndexOf(known, known[i - 1]);
    assert j == i - 1;
  }

  // ----- the operation itself -----

  ghost predicate IsWalk(r: Request, s0: Walk, states: seq<Walk>, script: Script) {
    && states != [] && states[0] == s0
    && forall i :: 0 <= i < |states| - 1 ==>
         !states[i].spot.Left? && states[i + 1] == Advance(r, states[i], script(|states[i].trace|))
  }

  lemma WalkGoesOn(r: Request, s0: Walk, states: seq<Walk>, script: Script)
    requires IsWalk(r, s0, states, script) && !states[|states| - 1].spot.Left?
    ensures var s := states[|states| - 1]; IsWalk(r, s0, states + [Advance(r, s, script(|s.trace|))], script)
  {
  }

  lemma {:induction false} WalkLeadsToEnd(r: Request, s0: Walk, states: seq<Walk>, script: Script, i: nat)
    requires IsWalk(r, s0, states, script) && i < |states|
    ensures Eventually(r, states[i], script) == Eventually(r, s0, script)
  {
    if i > 0 { WalkLeadsToEnd(r, s0, states, script, i - 1); }
  }

  /** `_Rollback`, on the world it runs in. */
  class Operation {
    const r: Request
    const script: Script
    ghost const start: Walk
    ghost var states: seq<Walk>
    var world: World
    var trace: seq<Event>

    constructor (r: Request, world: World, script: Script)
      ensures this.r == r && this.world == world && this.script == script
      ensures start == First(r, world) && states == [start] && trace == []
    {
      this.r, this.world, this.script, trace := r, world, script, [];
      start, states := First(r, world), [First(r, world)];
    }

    ghost predicate Tracks(p: Spot)
      reads this
    {
      states != [] && states[|states| - 1] == Walk(p, world, trace) && IsWalk(r, start, states, script)
    }

    method Command(c: Command, ghost p: Spot) returns (ok: bool)
      requires Tracks(p) && !p.Left? && c == CommandFor(r, p)
      modifies this
      ensures var next := NextSpot(r, p, ok);
              && states != [] && IsWalk(r, start, states, script)
              && states[|states| - 1] ==
                   Walk(next, if next.Left? && next.exit != LeftInMaintenance then world.(inProgress := None) else world, trace)
    {
      var o := script(|trace|);
      var e := Record(world, c, o);
      WalkGoesOn(r, start, states, script);
      states := states + [Advance(r, Walk(p, world, trace), o)];
      world := After(world, c, o);
      trace := trace + [e];
      return e.ok;
    }

    method MaintenanceMode() returns (e: Exit)
      requires Tracks(ToNotify)
      modifies this
      ensures Tracks(Left(e))
    {
      var _ := Command(Notify, ToNotify);
      return LeftInMaintenance;
    }

    method Resume(exit: Exit) returns (e: Exit)
      requires Tracks(ToResume(exit)) && exit != LeftInMaintenance
      modifies this
      ensures Tracks(Left(e))
    {
      var ok := Command(EndMaintenance, ToResume(exit));
      if !ok {
        e := MaintenanceMode();
        return;
      }
      world := world.(inProgress := None);
      return exit;
    }

    method Run() returns (e: Exit)
      requires start == First(r, world) && states == [start] && trace == []
      modifies this
      ensures Walk(Left(e), world, trace) == Ending(r, old(world), script)
    {
      e := Drained();
      WalkLeadsToEnd(r, start, states, script, |states| - 1);
    }

    method Drained() returns (e: Exit)
      requires start == First(r, world) && states == [start] && trace == []
      modifies this
      ensures Tracks(Left(e))
    {
      world := world.(inProgress := Some(Progress("rollback", r.current, r.target, r.restorePoint)));
      var began := !r.maintenance;
      if began {
        var ok := Command(BeginMaintenance, ToBegin);
        if !ok {
          e := Resume(Aborted);
          return;
        }
      }
      var ok := Command(Drain, ToDrain);
      if !ok {
        if began {
          e := Resume(Aborted);
        } else {
          world := world.(inProgress := None);
          e := Aborted;
        }
        return;
      }
      ok := Command(Stop, ToStop);
      if !ok {
        e := MaintenanceMode();
        return;
      }
      e := GoBack();
    }

    method GoBack() returns (e: Exit)
      requires Tracks(if r.restorePoint.Some? then ToRestore else ToSwitch)
      modifies this
      ensures Tracks(Left(e))
    {
      var ok := true;
      if r.restorePoint.Some? {
        ok := Command(RestorePoint(r.restorePoint.value), ToRestore);
      }
      if ok {
        var _ := Command(Switch(r.target), ToSwitch);
        if r.restorePoint.Some? {
          ok := Command(PostRestore, ToClean);
        }
      }
      if !ok {
        e := MaintenanceMode();
        return;
      }
      e := StartTarget();
    }

    method StartTarget() returns (e: Exit)
      requires Tracks(ToStart)
      modifies this
      ensures Tracks(Left(e))
    {
      var ok := Command(Start, ToStart);
      if ok {
        ok := Command(Health(r.target, r.Expected()), ToHealth);
      }
      if !ok {
        e := MaintenanceMode();
        return;
      }
      e := Resume(Done);
    }
  }
}

/**
 Updating and rolling back a release (apps/backend/deploy/release/paw_release.py:
 `_Operation`, `_Update`, `_Rollback`, `State`).

 Every external command has an outcome that the environment chooses: it may
 fail, and a failed command may or may not have had its effect. The outcomes
 come from a `Script`; a claim about all scripts is a claim about all outcomes.
 */
module Release {
  import opened Options

  datatype Database = Database(revision: Option<string>, content: nat)

  datatype Point = Point(db: Database, verified: bool)

  /** `in_progress` of state.json. */
  datatype Progress = Progress(operation: string, from: string, to: string, restorePoint: Option<string>)

  datatype Command =
    | BeginMaintenance
    | EndMaintenance
    | Drain
    | Backup
    | Stop
    | Start
    | CreatePoint(name: string)
    | VerifyPoint(name: string)
    | RestorePoint(name: string)
    | PostRestore
    | Migrate(head: Option<string>)
    | Health(release: string, revision: Option<string>)
    | Switch(version: string)
    | Notify

  /** What happened when a command ran: whether it reported success and whether
      it took effect; the database it found and left; what was being served and
      what state.json said meanwhile. */
  datatype Event = Event(
    command: Command, ok: bool, took: bool,
    before: Database, after: Database,
    serving: Option<string>, progress: Option<Progress>)

  datatype World = World(
    link: string,                  // the release `current` points at
    serving: Option<string>,       // the release whose services run
    db: Database,
    maintenance: bool,
    points: map<string, Point>,
    knownGood: seq<string>,
    inProgress: Option<Progress>)

  /** What the environment decides about one command. `wrote` is what a running
      release has made of the data by then; `revision` and `content` are what a
      migration or a failed restore leaves. */
  datatype Outcome = Outcome(ok: bool, took: bool, wrote: nat, revision: Option<string>, content: nat)

  type Script = nat -> Outcome

  // ----- commands -----

  function Drifted(w: World, o: Outcome): World {
    if w.serving.Some? then w.(db := w.db.(content := o.wrote)) else w
  }

  /** Whether the command reports success: a health check reads the schema
      revision, and a restore point that does not exist cannot be used. */
  predicate Succeeds(w: World, c: Command, o: Outcome) {
    match c
    case Switch(_) => true
    case Health(_, revision) => o.ok && w.db.revision == revision
    case VerifyPoint(name) => o.ok && name in w.points
    case RestorePoint(name) => o.ok && name in w.points
    case _ => o.ok
  }

  function Effect(w: World, c: Command, ok: bool, o: Outcome): World {
    match c
    case BeginMaintenance => w.(maintenance := true)
    case EndMaintenance => w.(maintenance := false)
    case Stop => w.(serving := None)
    case Start => w.(serving := Some(w.link))
    case Switch(version) => w.(link := version)
    case CreatePoint(name) => w.(points := w.points[name := Point(w.db, false)])
    case VerifyPoint(name) =>
      if name in w.points then w.(points := w.points[name := w.points[name].(verified := true)]) else w
    case RestorePoint(name) =>
      w.(db := if ok && name in w.points then w.points[name].db else Database(o.revision, o.content))
    case PostRestore => w.(db := w.db.(content := o.content))
    case Migrate(head) => w.(db := Database(if ok then head else o.revision, o.content))
    case _ => w
  }

  /** The world after one command, and the record of it. */
  function After(w: World, c: Command, o: Outcome): World {
    var v := Drifted(w, o);
    var ok := Succeeds(v, c, o);
    if ok || o.took then Effect(v, c, ok, o) else v
  }

  function Record(w: World, c: Command, o: Outcome): Event {
    var v := Drifted(w, o);
    var ok := Succeeds(v, c, o);
    Event(c, ok, ok || o.took, v.db, After(w, c, o).db, w.serving, w.inProgress)
  }

  /** `mark_known_good`. */
  function Without(known: seq<string>, version: string): seq<string> {
    if known == [] then []
    else if known[0] == version then Without(known[1..], version)
    else [known[0]] + Without(known[1..], version)
  }

  function Marked(known: seq<string>, version: string): seq<string> {
    Without(known, version) + [version]
  }

  // ----- the update, one command at a time -----

  /** The exit codes 0, 3, 4 and 5. */
  datatype Exit = Done | Aborted | RolledBack | LeftInMaintenance

  /** `revision` is the schema revision the plan read; `head` the target's. */
  datatype Update = Update(
    current: string, target: string, point: string,
    revision: Option<string>, head: Option<string>,
    migration: bool, stopNow: bool)
  {
    function Expected(): Option<string> {
      if migration then head else revision
    }
  }

  /** The places of `_Update.run`, `abort` and `rollback` where a command runs. */
  datatype Place =
    | AtBegin | AtDrain | AtBackup | AtStop
    | AtCreate | AtVerify | AtMigrate
    | AtSwitch | AtStart | AtHealth
    | AtRestart                                    // of the release that was stopped
    | AtUndoStop | AtUndoRestore | AtUndoSwitch | AtUndoClean | AtUndoStart | AtUndoHealth
    | AtResume(exit: Exit)                         // the last command before `exit`
    | AtNotify
    | Exited(exit: Exit)

  function CommandAt(u: Update, p: Place): Command {
    match p
    case AtBegin => BeginMaintenance
    case AtDrain => Drain
    case AtBackup => Backup
    case AtStop => Stop
    case AtCreate => CreatePoint(u.point)
    case AtVerify => VerifyPoint(u.point)
    case AtMigrate => Migrate(u.head)
    case AtSwitch => Switch(u.target)
    case AtStart => Start
    case AtHealth => Health(u.target, u.Expected())
    case AtRestart => Start
    case AtUndoStop => Stop
    case AtUndoRestore => RestorePoint(u.point)
    case AtUndoSwitch => Switch(u.current)
    case AtUndoClean => PostRestore
    case AtUndoStart => Start
    case AtUndoHealth => Health(u.current, u.revision)
    case AtResume(_) => EndMaintenance
    case _ => Notify
  }

  /** Where the code goes after the command at `p` succeeded or failed. */
  function NextPlace(u: Update, p: Place, ok: bool): Place {
    match p
    case AtBegin => if ok then AtDrain else AtResume(Aborted)
    case AtDrain => if ok || u.stopNow then AtBackup else AtResume(Aborted)
    case AtBackup => if ok then AtStop else AtResume(Aborted)
    case AtStop => if !ok then AtRestart else if u.migration then AtCreate else AtSwitch
    case AtCreate => if ok then AtVerify else AtRestart
    case AtVerify => if ok then AtMigrate else AtRestart
    case AtMigrate => if ok then AtSwitch else AtUndoStop
    case AtSwitch => AtStart
    case AtStart => if ok then AtHealth else AtUndoStop
    case AtHealth => if ok then AtResume(Done) else AtUndoStop
    case AtRestart => if ok then AtResume(Aborted) else AtNotify
    case AtUndoStop => if !ok then AtNotify else if u.migration then AtUndoRestore else AtUndoSwitch
    case AtUndoRestore => if ok then AtUndoSwitch else AtNotify
    case AtUndoSwitch => if u.migration then AtUndoClean else AtUndoStart
    case AtUndoClean => if ok then AtUndoStart else AtNotify
    case AtUndoStart => if ok then AtUndoHealth else AtNotify
    case AtUndoHealth => if ok then AtResume(RolledBack) else AtNotify
    case AtResume(e) => if ok then Exited(e) else AtNotify
    case AtNotify => Exited(LeftInMaintenance)
    case Exited(_) => p
  }

  /** What the code writes to state.json once the command at `p` has succeeded. */
  function Noted(u: Update, p: Place, ok: bool, w: World): World {
    if !ok then w
    else match p
      case AtVerify =>
        if w.inProgress.None? then w else w.(inProgress := Some(w.inProgress.value.(restorePoint := Some(u.point))))
      case AtHealth => w.(knownGood := Marked(w.knownGood, u.target))
      case AtResume(_) => w.(inProgress := None)
      case _ => w
  }

  /** Where the run is, the world, and what the run has done so far. */
  datatype State = State(place: Place, world: World, trace: seq<Event>)

  function Step(u: Update, s: State, o: Outcome): State
    requires !s.place.Exited?
  {
    var c := CommandAt(u, s.place);
    var e := Record(s.world, c, o);
    State(NextPlace(u, s.place, e.ok), Noted(u, s.place, e.ok, After(s.world, c, o)), s.trace + [e])
  }

  function Initial(u: Update, w: World): State {
    State(AtBegin, w.(inProgress := Some(Progress("update", u.current, u.target, None))), [])
  }

  /** The code only moves forward. */
  function Remaining(p: Place): nat {
    match p
    case AtBegin => 20 case AtDrain => 19 case AtBackup => 18 case AtStop => 17
    case AtCreate => 16 case AtVerify => 15 case AtMigrate => 14
    case AtSwitch => 13 case AtStart => 12 case AtHealth => 11
    case AtRestart => 10
    case AtUndoStop => 9 case AtUndoRestore => 8 case AtUndoSwitch => 7 case AtUndoClean => 6
    case AtUndoStart => 5 case AtUndoHealth => 4
    case AtResume(_) => 3 case AtNotify => 2 case Exited(_) => 0
  }

  lemma MovesForward(u: Update, p: Place, ok: bool)
    requires !p.Exited?
    ensures Remaining(NextPlace(u, p, ok)) < Remaining(p)
  {
  }

  /** The rest of the run under a script. */
  function Finally(u: Update, s: State, script: Script): State
    decreases Remaining(s.place)
  {
    if s.place.Exited? then s
    else
      MovesForward(u, s.place, Record(s.world, CommandAt(u, s.place), script(|s.trace|)).ok);
      Finally(u, Step(u, s, script(|s.trace|)), script)
  }

  // ----- what holds at each place -----

  /** The event `back` places before the end. */
  ghost predicate Ran(tr: seq<Event>, back: nat, c: Command) {
    back < |tr| && tr[|tr| - 1 - back].command == c && tr[|tr| - 1 - back].ok
  }

  /** The update began with the maintenance, the drain (which `stopNow` lets fail) and
      the backup, each done. */
  ghost predicate Prepared(u: Update, tr: seq<Event>) {
    && |tr| >= 3
    && tr[0].command == BeginMaintenance && tr[0].ok
    && tr[1].command == Drain && (tr[1].ok || u.stopNow)
    && tr[2].command == Backup && tr[2].ok
  }

  /** What must hold of every event of an update. */
  ghost predicate EventOk(u: Update, tr: seq<Event>, i: nat)
    requires i < |tr|
  {
    var e := tr[i];
    && e.progress.Some?
    && (e.command.Stop? ==> i >= 3 && Prepared(u, tr))
    && (e.command.Switch? ==> e.serving == None)
    && (e.command.Migrate? ==>
          && e.serving == None && e.progress.value.restorePoint == Some(u.point)
          && i >= 3
          && tr[i - 3].command == Stop && tr[i - 3].ok
          && tr[i - 2].command == CreatePoint(u.point) && tr[i - 2].ok && tr[i - 2].before == e.before
          && tr[i - 1].command == VerifyPoint(u.point) && tr[i - 1].ok)
    && (e.command.RestorePoint? ==>
          && e.command.name == u.point && e.serving == None
          && i >= 1 && tr[i - 1].command == Stop && tr[i - 1].ok)
  }

  predicate Quiet(p: Place) {
    p.AtCreate? || p.AtVerify? || p.AtMigrate? || p.AtSwitch? || p.AtStart?
    || p.AtUndoRestore? || p.AtUndoSwitch? || p.AtUndoClean? || p.AtUndoStart?
  }

  /** Before the migration and the switch. */
  predicate Early(p: Place) {
    p.AtBegin? || p.AtDrain? || p.AtBackup? || p.AtStop? || p.AtCreate? || p.AtVerify? || p.AtMigrate?
    || p.AtRestart? || p == AtResume(Aborted) || p == Exited(Aborted)
  }

  /** The migration of a run is its seventh event. */
  ghost predicate Migrated(u: Update, tr: seq<Event>) {
    |tr| > 6 && tr[6].command == Migrate(u.head)
  }

  /** The old release was told to stop (the fourth event of a run). */
  ghost predicate Stopped(tr: seq<Event>) {
    |tr| > 3 && tr[3].command == Stop
  }

  /** What would be restored is what the migration found. */
  ghost predicate PointFits(u: Update, w: World, tr: seq<Event>) {
    Migrated(u, tr) && u.point in w.points && w.points[u.point].db == tr[6].before
  }

  /** The restore `back` events ago put back exactly what the migration found. */
  ghost predicate Undone(u: Update, tr: seq<Event>, back: nat) {
    Migrated(u, tr) && Ran(tr, back, RestorePoint(u.point)) && tr[|tr| - 1 - back].after == tr[6].before
  }

  ghost predicate Untouched(w0: World, w: World, tr: seq<Event>) {
    && w.link == w0.link && w.db.revision == w0.db.revision && w.knownGood == w0.knownGood
    && forall e :: e in tr ==> !e.command.Switch? && !e.command.Migrate? && !e.command.RestorePoint?
  }

  /** What an exit promises; `back` is 0 just before the tasks are resumed, 1 after. */
  ghost predicate ExitOk(u: Update, w0: World, e: Exit, w: World, tr: seq<Event>, back: nat) {
    match e
    case Done =>
      && w.link == u.target && w.serving == Some(u.target) && w.db.revision == u.Expected()
      && Ran(tr, back, Health(u.target, u.Expected()))
    case Aborted =>
      w.serving == if Stopped(tr) then Some(w0.link) else w0.serving
    case RolledBack =>
      && w.link == u.current && w.serving == Some(u.current) && w.db.revision == u.revision
      && (u.migration ==> Undone(u, tr, back + 4))
      && Ran(tr, back, Health(u.current, u.revision))
    case LeftInMaintenance => back == 1 && w.inProgress.Some?
  }

  ghost predicate Facts(u: Update, w0: World, p: Place, w: World, tr: seq<Event>) {
    match p
    case AtBegin => |tr| == 0 && w.serving == w0.serving
    case AtDrain => |tr| == 1 && w.serving == w0.serving
    case AtBackup => |tr| == 2 && w.serving == w0.serving
    case AtStop => |tr| == 3 && w.serving == w0.serving
    case AtCreate => |tr| == 4 && Ran(tr, 0, Stop) && u.migration
    case AtVerify =>
      && |tr| == 5 && u.migration
      && Ran(tr, 0, CreatePoint(u.point)) && Ran(tr, 1, Stop) && tr[4].before == w.db
      && u.point in w.points && w.points[u.point].db == w.db
    case AtMigrate =>
      && |tr| == 6 && u.migration
      && Ran(tr, 0, VerifyPoint(u.point)) && Ran(tr, 1, CreatePoint(u.point)) && Ran(tr, 2, Stop)
      && tr[4].before == w.db
      && u.point in w.points && w.points[u.point].db == w.db
      && w.inProgress.Some? && w.inProgress.value.restorePoint == Some(u.point)
    case AtSwitch => (u.migration ==> PointFits(u, w, tr))
    case AtStart => (u.migration ==> PointFits(u, w, tr)) && w.link == u.target
    case AtHealth => (u.migration ==> PointFits(u, w, tr)) && w.link == u.target && w.serving == Some(u.target)
    case AtRestart => Stopped(tr)
    case AtUndoStop => (u.migration ==> PointFits(u, w, tr))
    case AtUndoRestore => PointFits(u, w, tr) && Ran(tr, 0, Stop) && u.migration
    case AtUndoSwitch => (u.migration ==> Undone(u, tr, 0))
    case AtUndoClean => Undone(u, tr, 1) && w.link == u.current
    case AtUndoStart => (u.migration ==> Undone(u, tr, 2)) && w.link == u.current
    case AtUndoHealth => (u.migration ==> Undone(u, tr, 3)) && w.link == u.current && w.serving == Some(u.current)
    case AtResume(e) => ExitOk(u, w0, e, w, tr, 0)
    case AtNotify => true
    case Exited(e) => ExitOk(u, w0, e, w, tr, 1)
  }

  /** A version is known good only after its health check in this very run. */
  ghost predicate KnownOk(u: Update, w0: World, p: Place, w: World) {
    if p == AtResume(Done) || p == Exited(Done) then w.knownGood == Marked(w0.knownGood, u.target)
    else if p.AtNotify? || p == Exited(LeftInMaintenance) then
      w.knownGood == w0.knownGood || w.knownGood == Marked(w0.knownGood, u.target)
    else w.knownGood == w0.knownGood
  }

  /** The maintenance flag: on as soon as its beginning took effect, off as soon
      as its end took effect. */
  ghost predicate MaintenanceOk(w0: World, p: Place, w: World, tr: seq<Event>) {
    if p.AtBegin? then w.maintenance == w0.maintenance
    else
      && tr != [] && tr[0].command.BeginMaintenance?
      && var on := w0.maintenance || tr[0].took;
         if p.AtNotify? then
           w.maintenance == (on && !(tr[|tr| - 1].command.EndMaintenance? && tr[|tr| - 1].took))
         else if p == Exited(LeftInMaintenance) then
           |tr| >= 2 && tr[|tr| - 1].command.Notify?
           && w.maintenance == (on && !(tr[|tr| - 2].command.EndMaintenance? && tr[|tr| - 2].took))
         else if p.Exited? then !w.maintenance && w.inProgress == None && Ran(tr, 0, EndMaintenance)
         else w.maintenance == on
  }

  /** How far the preparations are. */
  ghost predicate PreparedOk(u: Update, p: Place, tr: seq<Event>) {
    match p
    case AtBegin => tr == []
    case AtDrain => |tr| == 1 && tr[0].command == BeginMaintenance && tr[0].ok
    case AtBackup =>
      && |tr| == 2 && tr[0].command == BeginMaintenance && tr[0].ok
      && tr[1].command == Drain && (tr[1].ok || u.stopNow)
    case AtResume(_) => true
    case AtNotify => true
    case Exited(_) => true
    case _ => Prepared(u, tr)
  }

  ghost predicate Core(u: Update, w0: World, s: State) {
    && (!s.place.Exited? ==> s.world.inProgress.Some?)
    && (Quiet(s.place) ==> s.world.serving == None)
    && (Early(s.place) ==> s.world.link == w0.link)
    && Facts(u, w0, s.place, s.world, s.trace)
  }

  ghost predicate Inv(u: Update, w0: World, s: State) {
    && (forall i :: 0 <= i < |s.trace| ==> EventOk(u, s.trace, i))
    && (Early(s.place) ==> Untouched(w0, s.world, s.trace))
    && PreparedOk(u, s.place, s.trace)
    && Core(u, w0, s)
    && KnownOk(u, w0, s.place, s.world)
    && MaintenanceOk(w0, s.place, s.world, s.trace)
  }

  // ----- every command keeps it -----

  /** One more event moves the earlier ones one place back. */
  lemma EventsShift(u: Update, tr: seq<Event>, e: Event, back: nat, c: Command)
    ensures Ran(tr, back, c) ==> Ran(tr + [e], back + 1, c)
    ensures Undone(u, tr, back) ==> Undone(u, tr + [e], back + 1)
    ensures Ran(tr + [e], 0, c) <==> e.command == c && e.ok
  {
  }

  lemma EventsStay(u: Update, w0: World, s: State, o: Outcome)
    requires !s.place.Exited? && Core(u, w0, s) && PreparedOk(u, s.place, s.trace)
    requires forall i :: 0 <= i < |s.trace| ==> EventOk(u, s.trace, i)
    ensures var t := Step(u, s, o).trace; forall i :: 0 <= i < |t| ==> EventOk(u, t, i)
  {
    var t := Step(u, s, o).trace;
    assert EventOk(u, t, |s.trace|);
    forall i | 0 <= i < |s.trace| ensures EventOk(u, t, i) { assert EventOk(u, s.trace, i); }
  }

  lemma PreparedStays(u: Update, s: State, o: Outcome)
    requires !s.place.Exited? && PreparedOk(u, s.place, s.trace)
    ensures PreparedOk(u, Step(u, s, o).place, Step(u, s, o).trace)
  {
  }

  lemma QuietStays(u: Update, w0: World, s: State, o: Outcome)
    requires !s.place.Exited? && (Quiet(s.place) ==> s.world.serving == None)
    ensures Quiet(Step(u, s, o).place) ==> Step(u, s, o).world.serving == None
  {
  }

  lemma UntouchedStays(u: Update, w0: World, s: State, o: Outcome)
    requires !s.place.Exited? && (Early(s.place) ==> Untouched(w0, s.world, s.trace))
    ensures Early(Step(u, s, o).place) ==> Untouched(w0, Step(u, s, o).world, Step(u, s, o).trace)
  {
  }

  lemma KnownStays(u: Update, w0: World, s: State, o: Outcome)
    requires !s.place.Exited? && KnownOk(u, w0, s.place, s.world)
    ensures KnownOk(u, w0, Step(u, s, o).place, Step(u, s, o).world)
  {
  }

  lemma MaintenanceStays(u: Update, w0: World, s: State, o: Outcome)
    requires !s.place.Exited? && MaintenanceOk(w0, s.place, s.world, s.trace)
    requires (s.place.AtBegin? ==> s.trace == []) && s.place != AtResume(LeftInMaintenance)
    ensures MaintenanceOk(w0, Step(u, s, o).place, Step(u, s, o).world, Step(u, s, o).trace)
  {
  }

  lemma FactsBefore(u: Update, w0: World, s: State, o: Outcome)
    requires Core(u, w0, s) && (s.place.AtBegin? || s.place.AtDrain? || s.place.AtBackup? || s.place.AtStop?)
    ensures var t := Step(u, s, o); Facts(u, w0, t.place, t.world, t.trace)
  {
  }

  lemma FactsPoint(u: Update, w0: World, s: State, o: Outcome)
    requires Core(u, w0, s) && (s.place.AtCreate? || s.place.AtVerify? || s.place.AtMigrate? || s.place.AtRestart?)
    requires w0.link == u.current
    ensures var t := Step(u, s, o); Facts(u, w0, t.place, t.world, t.trace)
  {
  }

  lemma FactsLaunch(u: Update, w0: World, s: State, o: Outcome)
    requires Core(u, w0, s) && (s.place.AtSwitch? || s.place.AtStart? || s.place.AtHealth?)
    ensures var t := Step(u, s, o); Facts(u, w0, t.place, t.world, t.trace)
  {
  }

  lemma FactsUndo(u: Update, w0: World, s: State, o: Outcome)
    requires Core(u, w0, s) && (s.place.AtUndoStop? || s.place.AtUndoRestore? || s.place.AtUndoSwitch?)
    ensures var t := Step(u, s, o); Facts(u, w0, t.place, t.world, t.trace)
  {
    EventsShift(u, s.trace, Record(s.world, CommandAt(u, s.place), o), 0, Stop);
  }

  lemma FactsUndone(u: Update, w0: World, s: State, o: Outcome)
    requires Core(u, w0, s) && (s.place.AtUndoClean? || s.place.AtUndoStart? || s.place.AtUndoHealth?)
    ensures var t := Step(u, s, o); Facts(u, w0, t.place, t.world, t.trace)
  {
    var back := if s.place.AtUndoClean? then 1 else if s.place.AtUndoStart? then 2 else 3;
    EventsShift(u, s.trace, Record(s.world, CommandAt(u, s.place), o), back, CommandAt(u, s.place));
  }

  lemma FactsResumed(u: Update, w0: World, s: State, o: Outcome)
    requires Core(u, w0, s) && s.place.AtResume?
    ensures var t := Step(u, s, o); Facts(u, w0, t.place, t.world, t.trace)
  {
    var e := Record(s.world, EndMaintenance, o);
    match s.place.exit
    case Done => EventsShift(u, s.trace, e, 0, Health(u.target, u.Expected()));
    case RolledBack =>
      EventsShift(u, s.trace, e, 0, Health(u.current, u.revision));
      EventsShift(u, s.trace, e, 4, Notify);
    case _ =>
  }

  lemma FactsNotified(u: Update, w0: World, s: State, o: Outcome)
    requires Core(u, w0, s) && s.place.AtNotify?
    ensures var t := Step(u, s, o); Facts(u, w0, t.place, t.world, t.trace)
  {
  }

  lemma FactsStay(u: Update, w0: World, s: State, o: Outcome)
    requires Core(u, w0, s) && !s.place.Exited? && w0.link == u.current
    ensures var t := Step(u, s, o); Facts(u, w0, t.place, t.world, t.trace)
  {
    var p := s.place;
    if p.AtBegin? || p.AtDrain? || p.AtBackup? || p.AtStop? { FactsBefore(u, w0, s, o); }
    else if p.AtCreate? || p.AtVerify? || p.AtMigrate? || p.AtRestart? { FactsPoint(u, w0, s, o); }
    else if p.AtSwitch? || p.AtStart? || p.AtHealth? { FactsLaunch(u, w0, s, o); }
    else if p.AtUndoStop? || p.AtUndoRestore? || p.AtUndoSwitch? { FactsUndo(u, w0, s, o); }
    else if p.AtResume? { FactsResumed(u, w0, s, o); }
    else if p.AtNotify? { FactsNotified(u, w0, s, o); }
    else { FactsUndone(u, w0, s, o); }
  }

  lemma ProgressStays(u: Update, s: State, o: Outcome)
    requires !s.place.Exited? && s.world.inProgress.Some?
    ensures Step(u, s, o).world.inProgress.Some? || Step(u, s, o).place.Exited?
  {
  }

  lemma StepKeeps(u: Update, w0: World, s: State, o: Outcome)
    requires Inv(u, w0, s) && !s.place.Exited? && w0.link == u.current
    ensures Inv(u, w0, Step(u, s, o))
  {
    EventsStay(u, w0, s, o);
    PreparedStays(u, s, o);
    QuietStays(u, w0, s, o);
    UntouchedStays(u, w0, s, o);
    KnownStays(u, w0, s, o);
    MaintenanceStays(u, w0, s, o);
    FactsStay(u, w0, s, o);
    ProgressStays(u, s, o);
  }

  lemma {:induction false} FinallyKeeps(u: Update, w0: World, s: State, script: Script)
    requires Inv(u, w0, s) && w0.link == u.current
    ensures Inv(u, w0, Finally(u, s, script)) && Finally(u, s, script).place.Exited?
    decreases Remaining(s.place)
  {
    if !s.place.Exited? {
      var o := script(|s.trace|);
      StepKeeps(u, w0, s, o);
      MovesForward(u, s.place, Record(s.world, CommandAt(u, s.place), o).ok);
      FinallyKeeps(u, w0, Step(u, s, o), script);
    }
  }

  // ----- what the exit code of an update says -----

  ghost function Outcomes(u: Update, w0: World, script: Script): State {
    Finally(u, Initial(u, w0), script)
  }

  lemma UpdateInv(u: Update, w0: World, script: Script)
    requires w0.link == u.current
    ensures Inv(u, w0, Outcomes(u, w0, script)) && Outcomes(u, w0, script).place.Exited?
  {
    FinallyKeeps(u, w0, Initial(u, w0), script);
  }

  /** For every outcome of every command, the exit code describes the world:
      0: the target is current, serves, passed its health check at the expected
         revision and is the newest known-good release;
      3: the link, the schema revision and the known-good list are as before,
         nothing was switched, migrated or restored, and the old release serves
         again if it was told to stop;
      4: the old release is current, serves and passed its health check at the
         revision the plan had read, and a migration was undone exactly;
      5: the operation is still on record.
      After 0, 3 and 4 the maintenance is over and nothing is on record. */
  lemma ExitCodeDescribesWorld(u: Update, w0: World, script: Script)
    requires w0.link == u.current
    ensures var s := Outcomes(u, w0, script);
            && s.place.Exited?
            && (s.place.exit != LeftInMaintenance ==>
                  !s.world.maintenance && s.world.inProgress == None && Ran(s.trace, 0, EndMaintenance))
            && match s.place.exit
               case Done =>
                 && s.world.link == u.target && s.world.serving == Some(u.target)
                 && s.world.db.revision == u.Expected() && Ran(s.trace, 1, Health(u.target, u.Expected()))
                 && s.world.knownGood == Marked(w0.knownGood, u.target)
               case Aborted =>
                 && Untouched(w0, s.world, s.trace)
                 && s.world.serving == if Stopped(s.trace) then Some(w0.link) else w0.serving
               case RolledBack =>
                 && s.world.link == u.current && s.world.serving == Some(u.current)
                 && s.world.db.revision == u.revision && Ran(s.trace, 1, Health(u.current, u.revision))
                 && s.world.knownGood == w0.knownGood
                 && (u.migration ==> Undone(u, s.trace, 5))
               case LeftInMaintenance => s.world.inProgress.Some?
  {
    UpdateInv(u, w0, script);
  }

  /** In every run, whatever its exit: nothing is stopped before the maintenance has
      begun, the tasks are drained (unless asked to stop at once) and the backup is made;
      a migration runs only right after the old
      release was stopped and a restore point of that very database was made
      and verified, with the point on record; a restore only right after the
      release that may have been running was stopped; the link moves only while
      nothing is served; and each of them while the operation is on record. */
  lemma MigrationIsAlwaysUndoable(u: Update, w0: World, script: Script, i: nat)
    requires w0.link == u.current && i < |Outcomes(u, w0, script).trace|
    ensures EventOk(u, Outcomes(u, w0, script).trace, i)
  {
    UpdateInv(u, w0, script);
  }

  /** Exit 5 is documented as "the system is left in maintenance". It is, unless
      beginning the maintenance had not taken effect or the last attempt to end
      it failed after taking effect. */
  lemma MaintenanceAfterExitFive(u: Update, w0: World, script: Script)
    requires w0.link == u.current
    ensures var s := Outcomes(u, w0, script);
            s.place == Exited(LeftInMaintenance) ==>
              && |s.trace| >= 2 && s.trace[0].command == BeginMaintenance && s.trace[|s.trace| - 1].command == Notify
              && var last := s.trace[|s.trace| - 2];
                 s.world.maintenance <==>
                   (w0.maintenance || s.trace[0].took) && !(last.command == EndMaintenance && last.took)
  {
    UpdateInv(u, w0, script);
  }

  /** So it can be false: if neither beginning nor ending it works, an update of
      a running system exits 5 and no maintenance is on. */
  lemma ExitFiveWithoutMaintenance(u: Update, w0: World)
    requires w0.link == u.current && !w0.maintenance
    ensures var s := Outcomes(u, w0, _ => Outcome(false, false, 0, None, 0));
            s.place == Exited(LeftInMaintenance) && !s.world.maintenance
  {
    var o := Outcome(false, false, 0, None, 0);
    var script: Script := _ => o;
    var s1 := Step(u, Initial(u, w0), o);
    var s2 := Step(u, s1, o);
    var s3 := Step(u, s2, o);
    assert s1.place == AtResume(Aborted) && s2.place == AtNotify && s3.place == Exited(LeftInMaintenance);
    assert Finally(u, Initial(u, w0), script) == Finally(u, s1, script) == Finally(u, s2, script) == s3;
  }

  // ----- which outcomes lead to which exit code -----

  /** The commands that failed, in order; not the notice at the end, and not a drain that
      may fail. */
  ghost function Failures(u: Update, tr: seq<Event>): seq<Command> {
    if tr == [] then []
    else
      var e := tr[|tr| - 1];
      Failures(u, tr[..|tr| - 1])
      + if e.ok || e.command.Notify? || (e.command.Drain? && u.stopNow) then [] else [e.command]
  }

  /** A failure of the new release, which is answered by going back. */
  predicate OfTarget(c: Command) {
    c.Migrate? || c.Start? || c.Health?
  }

  /** What the exit code must be. Nothing failed: 0. One command failed: 5 if it was the
      end of the maintenance, 4 if it was the migration, the start or the health of the
      target, 3 if it came before. More than one failed: 5. */
  ghost function ExitFor(failures: seq<Command>): Exit {
    if failures == [] then Done
    else if |failures| > 1 || failures[0].EndMaintenance? then LeftInMaintenance
    else if OfTarget(failures[0]) then RolledBack
    else Aborted
  }

  ghost predicate FailuresOk(p: Place, failures: seq<Command>) {
    match p
    case AtRestart => |failures| == 1 && ExitFor(failures) == Aborted
    case AtUndoStop => |failures| == 1 && ExitFor(failures) == RolledBack
    case AtUndoRestore => |failures| == 1 && ExitFor(failures) == RolledBack
    case AtUndoSwitch => |failures| == 1 && ExitFor(failures) == RolledBack
    case AtUndoClean => |failures| == 1 && ExitFor(failures) == RolledBack
    case AtUndoStart => |failures| == 1 && ExitFor(failures) == RolledBack
    case AtUndoHealth => |failures| == 1 && ExitFor(failures) == RolledBack
    case AtResume(e) => e != LeftInMaintenance && ExitFor(failures) == e && |failures| <= 1
    case AtNotify => ExitFor(failures) == LeftInMaintenance
    case Exited(e) => ExitFor(failures) == e
    case _ => failures == []
  }

  lemma FailuresStay(u: Update, s: State, o: Outcome)
    requires !s.place.Exited? && FailuresOk(s.place, Failures(u, s.trace))
    ensures FailuresOk(Step(u, s, o).place, Failures(u, Step(u, s, o).trace))
  {
    var t := Step(u, s, o);
    assert t.trace[..|t.trace| - 1] == s.trace;
  }

  lemma {:induction false} FailuresDecide(u: Update, s: State, script: Script)
    requires FailuresOk(s.place, Failures(u, s.trace))
    ensures var t := Finally(u, s, script); t.place.Exited? && ExitFor(Failures(u, t.trace)) == t.place.exit
    decreases Remaining(s.place)
  {
    if !s.place.Exited? {
      var o := script(|s.trace|);
      FailuresStay(u, s, o);
      MovesForward(u, s.place, Record(s.world, CommandAt(u, s.place), o).ok);
      FailuresDecide(u, Step(u, s, o), script);
    }
  }

  /** The exit code of an update is decided by the commands that failed, and by nothing
      else. */
  lemma ExitCodeIsDecided(u: Update, w0: World, script: Script)
    ensures var s := Outcomes(u, w0, script); s.place == Exited(ExitFor(Failures(u, s.trace)))
  {
    FailuresDecide(u, Initial(u, w0), script);
  }

  /** On the way to a new release with nothing failed: the schema revision. */
  ghost predicate Smooth(u: Update, w0: World, s: State) {
    && Failures(u, s.trace) == []
    && match s.place
       case AtCreate => u.migration && s.world.db.revision == w0.db.revision
       case AtVerify => u.migration && u.point in s.world.points && s.world.db.revision == w0.db.revision
       case AtMigrate => u.migration
       case AtSwitch => s.world.db.revision == u.Expected()
       case AtStart => s.world.db.revision == u.Expected()
       case AtHealth => s.world.db.revision == u.Expected()
       case AtResume(e) => e == Done
       case Exited(e) => e == Done
       case p => (p.AtBegin? || p.AtDrain? || p.AtBackup? || p.AtStop?) && s.world.db.revision == w0.db.revision
  }

  lemma SmoothStays(u: Update, w0: World, s: State, o: Outcome)
    requires Smooth(u, w0, s) && !s.place.Exited? && o.ok && w0.db.revision == u.revision
    ensures Smooth(u, w0, Step(u, s, o))
  {
    var t := Step(u, s, o);
    assert t.trace[..|t.trace| - 1] == s.trace;
  }

  lemma {:induction false} SmoothEnds(u: Update, w0: World, s: State, script: Script)
    requires Smooth(u, w0, s) && w0.db.revision == u.revision && forall n :: script(n).ok
    ensures Finally(u, s, script).place == Exited(Done)
    decreases Remaining(s.place)
  {
    if !s.place.Exited? {
      var o := script(|s.trace|);
      SmoothStays(u, w0, s, o);
      MovesForward(u, s.place, Record(s.world, CommandAt(u, s.place), o).ok);
      SmoothEnds(u, w0, Step(u, s, o), script);
    }
  }

  /** If every command does what it is asked and the schema is at the revision the plan
      had read, the update is installed. */
  lemma GoodUpdateIsInstalled(u: Update, w0: World, script: Script)
    requires w0.db.revision == u.revision && forall n :: script(n).ok
    ensures Outcomes(u, w0, script).place == Exited(Done)
  {
    SmoothEnds(u, w0, Initial(u, w0), script);
  }

  // ----- the operation itself -----

  /** `states` are the first states of the run that starts at `s0`. */
  ghost predicate IsRun(u: Update, s0: State, states: seq<State>, script: Script) {
    && states != [] && states[0] == s0
    && forall i :: 0 <= i < |states| - 1 ==>
         !states[i].place.Exited? && states[i + 1] == Step(u, states[i], script(|states[i].trace|))
  }

  lemma {:induction false} RunLeadsToEnd(u: Update, s0: State, states: seq<State>, script: Script, i: nat)
    requires IsRun(u, s0, states, script) && i < |states|
    ensures Finally(u, states[i], script) == Finally(u, s0, script)
  {
    if i > 0 { RunLeadsToEnd(u, s0, states, script, i - 1); }
  }

  /** `_Update` with its fields, on the world it runs in. */
  class Operation {
    const u: Update
    const script: Script
    ghost const start: State
    ghost var states: seq<State>
    var world: World
    var trace: seq<Event>
    var restorePoint: Option<string>
    var migrated: bool

    constructor (u: Update, world: World, script: Script)
      ensures this.u == u && this.world == world && this.script == script
      ensures start == Initial(u, world) && states == [start] && trace == []
      ensures !migrated && restorePoint == None
    {
      this.u, this.world, this.script := u, world, script;
      trace, restorePoint, migrated := [], None, false;
      start, states := Initial(u, world), [Initial(u, world)];
    }

    /** The run so far has come to place `p` with this world. */
    ghost predicate Tracks(p: Place)
      reads this
    {
      states != [] && states[|states| - 1] == State(p, world, trace) && IsRun(u, start, states, script)
    }

    /** Run the command of place `p`; `Noted` is then for the caller to write. */
    method Command(c: Command, ghost p: Place) returns (ok: bool)
      requires Tracks(p) && !p.Exited? && c == CommandAt(u, p)
      modifies this`world, this`trace, this`states
      ensures world.inProgress == old(world.inProgress)
      ensures states != [] && IsRun(u, start, states, script)
      ensures states[|states| - 1] == State(NextPlace(u, p, ok), Noted(u, p, ok, world), trace)
    {
      var o := script(|trace|);
      var e := Record(world, c, o);
      world := After(world, c, o);
      trace := trace + [e];
      states := states + [State(NextPlace(u, p, e.ok), Noted(u, p, e.ok, world), trace)];
      return e.ok;
    }

    method MaintenanceMode() returns (e: Exit)
      requires Tracks(AtNotify)
      modifies this`world, this`trace, this`states
      ensures Tracks(Exited(e))
    {
      var _ := Command(Notify, AtNotify);
      return LeftInMaintenance;
    }

    method Resume(exit: Exit) returns (e: Exit)
      requires Tracks(AtResume(exit))
      modifies this`world, this`trace, this`states
      ensures Tracks(Exited(e))
    {
      var ok := Command(EndMaintenance, AtResume(exit));
      if !ok {
        e := MaintenanceMode();
        return;
      }
      world := world.(inProgress := None);
      return exit;
    }

    method Abort(running: bool) returns (e: Exit)
      requires Tracks(if running then AtResume(Aborted) else AtRestart)
      modifies this`world, this`trace, this`states
      ensures Tracks(Exited(e))
    {
      if !running {
        var ok := Command(Start, AtRestart);
        if !ok {
          e := MaintenanceMode();
          return;
        }
      }
      e := Resume(Aborted);
    }

    /** After the switch back. */
    method RestartOld() returns (e: Exit)
      requires Tracks(AtUndoStart)
      modifies this`world, this`trace, this`states
      ensures Tracks(Exited(e))
    {
      var ok := Command(Start, AtUndoStart);
      if ok {
        ok := Command(Health(u.current, u.revision), AtUndoHealth);
      }
      if !ok {
        e := MaintenanceMode();
        return;
      }
      e := Resume(RolledBack);
    }

    method RollBack() returns (e: Exit)
      requires migrated == u.migration && (migrated ==> restorePoint == Some(u.point))
      requires Tracks(AtUndoStop)
      modifies this`world, this`trace, this`states
      ensures Tracks(Exited(e))
    {
      var ok := Command(Stop, AtUndoStop);
      if ok && migrated {
        ok := Command(RestorePoint(restorePoint.value), AtUndoRestore);
      }
      if !ok {
        e := MaintenanceMode();
        return;
      }
      var _ := Command(Switch(u.current), AtUndoSwitch);
      if migrated {
        ok := Command(PostRestore, AtUndoClean);
        if !ok {
          e := MaintenanceMode();
          return;
        }
      }
      e := RestartOld();
    }

    method Launch() returns (e: Exit)
      requires migrated == u.migration && (migrated ==> restorePoint == Some(u.point))
      requires Tracks(AtSwitch)
      modifies this`world, this`trace, this`states
      ensures Tracks(Exited(e))
    {
      var _ := Command(Switch(u.target), AtSwitch);
      var ok := Command(Start, AtStart);
      if ok {
        ok := Command(Health(u.target, u.Expected()), AtHealth);
      }
      if !ok {
        e := RollBack();
        return;
      }
      world := world.(knownGood := Marked(world.knownGood, u.target));
      e := Resume(Done);
    }

    /** `run`: the exit code and the world are those of the step-by-step run. */
    method Run() returns (e: Exit)
      requires start == Initial(u, world) && states == [start] && trace == []
      requires !migrated && restorePoint == None
      modifies this
      ensures Tracks(Exited(e))
      ensures State(Exited(e), world, trace) == Outcomes(u, old(world), script)
    {
      e := RunCommands();
      RunLeadsToEnd(u, start, states, script, |states| - 1);
    }

    method RunCommands() returns (e: Exit)
      requires start == Initial(u, world) && states == [start] && trace == []
      requires !migrated && restorePoint == None
      modifies this
      ensures Tracks(Exited(e))
    {
      world := world.(inProgress := Some(Progress("update", u.current, u.target, None)));
      var ok := Command(BeginMaintenance, AtBegin);
      if !ok {
        e := Abort(true);
        return;
      }
      ok := Command(Drain, AtDrain);
      if !ok && !u.stopNow {
        e := Abort(true);
        return;
      }
      ok := Command(Backup, AtBackup);
      if !ok {
        e := Abort(true);
        return;
      }
      e := StopAndLaunch();
    }

    /** With the tasks drained and the backup made. */
    method StopAndLaunch() returns (e: Exit)
      requires Tracks(AtStop) && world.inProgress.Some? && !migrated
      modifies this
      ensures Tracks(Exited(e))
    {
      var ok := Command(Stop, AtStop);
      if !ok {
        e := Abort(false);
        return;
      }
      if u.migration {
        e := MigrateAndLaunch();
      } else {
        e := Launch();
      }
    }

    method MigrateAndLaunch() returns (e: Exit)
      requires Tracks(AtCreate) && u.migration && world.inProgress.Some?
      modifies this
      ensures Tracks(Exited(e))
    {
      var ok := MakePoint();
      if !ok {
        e := Abort(false);
        return;
      }
      migrated := true;
      ok := Command(Migrate(u.head), AtMigrate);
      if !ok {
        e := RollBack();
        return;
      }
      e := Launch();
    }

    /** A restore point, verified and on record. */
    method MakePoint() returns (ok: bool)
      requires Tracks(AtCreate) && world.inProgress.Some?
      modifies this
      ensures Tracks(if ok then AtMigrate else AtRestart) && migrated == old(migrated)
      ensures ok ==> restorePoint == Some(u.point)
    {
      ok := Command(CreatePoint(u.point), AtCreate);
      if ok {
        ok := Command(VerifyPoint(u.point), AtVerify);
      }
      if ok {
        restorePoint := Some(u.point);
        world := world.(inProgress := Some(world.inProgress.value.(restorePoint := Some(u.point))));
      }
    }
  }
}

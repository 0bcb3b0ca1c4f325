/**
 Abortable database work (apps/backend/paw_backend/db.py, `Database`): the calls
 `fetch_abortable`, `transact_abortable` and `run_abortable`, the tasks they
 start, and `dispose()`.

 A call and the task it starts share the call's number. Every stretch between
 two awaits, and every done-callback, is one atomic step.
 */
module Database {
  import opened Options
  import Slots

  /** `done`: the task has ended; its callbacks give the slot back (`released`)
      and drop it from the registry (no longer `registered`) some time later. */
  datatype Task = Task(done: bool, released: bool, registered: bool, aborted: bool)

  datatype State = State(
    slots: Slots.State,
    disposing: nat,          // disposals that are running
    disposals: nat,          // disposals that have started
    epochs: map<nat, nat>,   // per call: the disposals seen when it asked for a slot
    tasks: map<nat, Task>)
  {
    predicate Live(c: nat) {
      c in tasks && !tasks[c].done
    }

    /** The call's local variable `disposals`. */
    function Epoch(c: nat): nat {
      if c in epochs then epochs[c] else 0
    }

    predicate IsWaiting(c: nat) {
      c in slots.calls && slots.calls[c].Waiting?
    }
  }

  function Initial(size: nat): State {
    State(Slots.Initial(size), 0, 0, map[], map[])
  }

  // ----- the code -----

  /** With the slot in hand: refuse if a disposal began meanwhile, otherwise
      create the task (`fails`: creating it raised, so nothing was started). */
  function Proceed(s: State, c: nat, fails: bool): State
    requires s.slots.inUse > 0
  {
    if s.disposals != s.Epoch(c) || fails then
      s.(slots := Slots.GiveBack(s.slots, c))
    else
      s.(tasks := s.tasks[c := Task(false, false, true, false)])
  }

  /** A new call, up to its first await. */
  function Begin(s: State, fails: bool): State {
    if s.disposing > 0 then
      s
    else
      var c := s.slots.arrivals;
      var t := s.(slots := Slots.Enter(s.slots), epochs := s.epochs[c := s.disposals]);
      if t.slots.Holds(c) then Proceed(t, c, fails) else t
  }

  /** A waiting call runs again. */
  function Continue(s: State, c: nat, fails: bool): State
    requires Slots.Enabled(s.slots, Slots.Resumption(c))
    requires s.slots.HandedOver(c) ==> s.slots.inUse > 0
  {
    var t := s.(slots := Slots.Resume(s.slots, c));
    if s.slots.HandedOver(c) && !s.slots.calls[c].cancelled then Proceed(t, c, fails) else t
  }

  function Abort(t: Task): Task {
    if t.done then t else t.(aborted := true)
  }

  function DisposeBegin(s: State): State {
    s.(disposing := s.disposing + 1,
       disposals := s.disposals + 1,
       slots := Slots.FailAll(s.slots),
       tasks := map c | c in s.tasks :: if s.tasks[c].registered then Abort(s.tasks[c]) else s.tasks[c])
  }

  datatype Step =
    | Call(fails: bool)
    | CancelWaiting(c: nat)             // timeout or cancellation while it waits
    | ResumeCall(c: nat, fails: bool)
    | Abandon(c: nat)                   // timeout or cancellation while its task runs
    | TaskEnds(c: nat)
    | ReleaseCallback(c: nat)
    | DiscardCallback(c: nat)
    | BeginDispose
    | EndDispose

  predicate Enabled(s: State, step: Step) {
    match step
    case Call(_) => true
    case CancelWaiting(c) => s.IsWaiting(c)
    case ResumeCall(c, _) => s.IsWaiting(c) && !s.slots.calls[c].future.Pending?
    case Abandon(c) => c in s.tasks
    case TaskEnds(c) => s.Live(c)
    case ReleaseCallback(c) => c in s.tasks && s.tasks[c].done && !s.tasks[c].released
    case DiscardCallback(c) => c in s.tasks && s.tasks[c].done && s.tasks[c].registered
    case BeginDispose => true
    case EndDispose => s.disposing > 0
  }

  /** The next state, or `None` where giving a slot back would raise. */
  function Apply(s: State, step: Step): Option<State>
    requires Enabled(s, step)
  {
    match step
    case Call(fails) => Some(Begin(s, fails))
    case CancelWaiting(c) => Some(s.(slots := Slots.Cancel(s.slots, c)))
    case ResumeCall(c, fails) =>
      if s.slots.HandedOver(c) && s.slots.inUse == 0 then None else Some(Continue(s, c, fails))
    case Abandon(c) => Some(s.(tasks := s.tasks[c := Abort(s.tasks[c])]))
    case TaskEnds(c) => Some(s.(tasks := s.tasks[c := s.tasks[c].(done := true)]))
    case ReleaseCallback(c) =>
      if s.slots.inUse == 0 then None
      else Some(s.(slots := Slots.GiveBack(s.slots, c), tasks := s.tasks[c := s.tasks[c].(released := true)]))
    case DiscardCallback(c) => Some(s.(tasks := s.tasks[c := s.tasks[c].(registered := false)]))
    case BeginDispose => Some(DisposeBegin(s))
    case EndDispose => Some(s.(disposing := s.disposing - 1))
  }

  ghost predicate IsRun(size: nat, states: seq<State>, steps: seq<Step>) {
    && |states| == |steps| + 1
    && states[0] == Initial(size)
    && forall i :: 0 <= i < |steps| ==>
         Enabled(states[i], steps[i]) && Apply(states[i], steps[i]) == Some(states[i + 1])
  }

  // ----- the invariant -----

  /** What holds of one call. */
  ghost predicate CallOk(s: State, c: nat) {
    && (s.slots.Holds(c) <==> c in s.tasks && !s.tasks[c].released)
    && (c in s.tasks ==> c in s.slots.calls && !s.IsWaiting(c))
    && (c in s.tasks && (s.tasks[c].released || !s.tasks[c].registered) ==> s.tasks[c].done)
    && (s.IsWaiting(c) ==> s.Epoch(c) <= s.disposals && (s.disposing > 0 ==> s.Epoch(c) < s.disposals))
    && (s.disposing > 0 && s.Live(c) ==> s.tasks[c].aborted)
  }

  ghost predicate CallsOk(s: State) {
    && s.disposing <= s.disposals
    && forall c :: CallOk(s, c)
  }

  ghost predicate Inv(s: State) {
    Slots.Inv(s.slots) && CallsOk(s)
  }

  /** Nothing about call `d` that `CallOk` looks at differs. */
  ghost predicate Same(s: State, t: State, d: nat) {
    && (d in s.slots.calls <==> d in t.slots.calls)
    && (s.slots.Holds(d) <==> t.slots.Holds(d))
    && (s.IsWaiting(d) <==> t.IsWaiting(d))
    && (d in s.tasks <==> d in t.tasks) && (d in s.tasks ==> s.tasks[d] == t.tasks[d])
    && s.Epoch(d) == t.Epoch(d)
  }

  /** A step of one call, outside the disposals. */
  lemma OnlyOneCall(s: State, t: State, c: nat)
    requires forall d :: d != c ==> CallOk(s, d)
    requires t.disposing == s.disposing <= t.disposals == s.disposals
    requires forall d :: d != c ==> Same(s, t, d)
    requires CallOk(t, c)
    ensures CallsOk(t)
  {
    forall d ensures CallOk(t, d) {
      if d != c { assert CallOk(s, d) && Same(s, t, d); }
    }
  }

  /** A release ends call `c`, may hand one slot over, and changes nothing else
      about who waits or holds. */
  lemma ReleaseFrame(s: Slots.State, c: nat)
    requires Slots.Inv(s) && (s.Holds(c) || s.HandedOver(c))
    ensures s.inUse > 0
    ensures var t := Slots.GiveBack(s, c);
            && Slots.Inv(t) && t.arrivals == s.arrivals && t.size == s.size
            && c in t.calls && t.calls[c].Ended?
            && (forall d :: d in t.calls <==> d in s.calls)
            && (forall d :: d in s.calls && d != c ==>
                  && (t.calls[d].Waiting? <==> s.calls[d].Waiting?)
                  && (t.calls[d].Holding? <==> s.calls[d].Holding?))
  {
    Slots.GiveBackKeeps(s, c);
    var u := s.(calls := s.calls[c := Slots.Ended]);
    assert forall d :: u.Pending(d) ==> s.Pending(d);
    Slots.ServeSize(u);
    Slots.ServeHandsToOldest(u);
    assert u.calls.Keys == s.calls.Keys;
  }

  /** A resumption of a call that does not get a slot. */
  lemma LeaveFrame(s: Slots.State, c: nat)
    requires Slots.Inv(s) && Slots.Enabled(s, Slots.Resumption(c))
    requires s.HandedOver(c) ==> s.calls[c].cancelled
    ensures s.HandedOver(c) ==> s.inUse > 0
    ensures var t := Slots.Resume(s, c);
            && Slots.Inv(t)
            && c in t.calls && t.calls[c].Ended?
            && (forall d :: d in t.calls <==> d in s.calls)
            && (forall d :: d in s.calls && d != c ==>
                  && (t.calls[d].Waiting? <==> s.calls[d].Waiting?)
                  && (t.calls[d].Holding? <==> s.calls[d].Holding?))
  {
    Slots.ResumeKeeps(s, c);
    if s.HandedOver(c) { ReleaseFrame(s, c); }
  }

  lemma ProceedKeeps(s: State, c: nat, fails: bool)
    requires Slots.Inv(s.slots) && s.slots.Holds(c) && c !in s.tasks
    requires s.disposing <= s.disposals && forall d :: d != c ==> CallOk(s, d)
    requires s.disposing > 0 ==> s.Epoch(c) < s.disposals
    ensures s.slots.inUse > 0 && Inv(Proceed(s, c, fails))
    ensures var t := Proceed(s, c, fails);
            && t.slots.size == s.slots.size && c in t.slots.calls && !t.IsWaiting(c)
            && (s.Epoch(c) != s.disposals ==> c !in t.tasks && !t.slots.Holds(c))
            && forall d :: d != c ==> Same(s, t, d)
  {
    ReleaseFrame(s.slots, c);
    var t := Proceed(s, c, fails);
    assert forall d :: d != c ==> Same(s, t, d);
    OnlyOneCall(s, t, c);
  }

  lemma BeginKeeps(s: State, fails: bool)
    requires Inv(s)
    ensures Inv(Begin(s, fails)) && Begin(s, fails).slots.size == s.slots.size
    ensures forall d :: d != s.slots.arrivals ==> Same(s, Begin(s, fails), d)
  {
    if s.disposing == 0 {
      var c := s.slots.arrivals;
      Slots.EnterKeeps(s.slots);
      var t := s.(slots := Slots.Enter(s.slots), epochs := s.epochs[c := s.disposals]);
      assert c !in s.tasks by { assert CallOk(s, c); }
      assert forall d :: d != c ==> Same(s, t, d);
      forall d | d != c ensures CallOk(t, d) { assert CallOk(s, d) && Same(s, t, d); }
      if t.slots.Holds(c) {
        ProceedKeeps(t, c, fails);
        forall d | d != c ensures Same(s, Begin(s, fails), d) {
          assert Same(s, t, d) && Same(t, Proceed(t, c, fails), d);
        }
      } else {
        OnlyOneCall(s, t, c);
      }
    }
  }

  lemma ContinueKeeps(s: State, c: nat, fails: bool)
    requires Inv(s) && Enabled(s, ResumeCall(c, fails))
    ensures s.slots.HandedOver(c) ==> s.slots.inUse > 0
    ensures Inv(Continue(s, c, fails))
    ensures var t := Continue(s, c, fails);
            && t.slots.size == s.slots.size && c in t.slots.calls && !t.IsWaiting(c)
            && (s.Epoch(c) != s.disposals ==> c !in t.tasks && !t.slots.Holds(c))
            && forall d :: d != c ==> Same(s, t, d)
  {
    Slots.ResumeKeeps(s.slots, c);
    if s.slots.HandedOver(c) && !s.slots.calls[c].cancelled {
      ContinueWithSlot(s, c, fails);
    } else {
      assert CallOk(s, c);
      LeaveFrame(s.slots, c);
      OnlyOneCall(s, s.(slots := Slots.Resume(s.slots, c)), c);
    }
  }

  lemma ContinueWithSlot(s: State, c: nat, fails: bool)
    requires Inv(s) && Enabled(s, ResumeCall(c, fails)) && s.slots.inUse > 0
    requires s.slots.HandedOver(c) && !s.slots.calls[c].cancelled
    ensures Inv(Continue(s, c, fails))
    ensures var t := Continue(s, c, fails);
            && t.slots.size == s.slots.size && c in t.slots.calls && !t.IsWaiting(c)
            && (s.Epoch(c) != s.disposals ==> c !in t.tasks && !t.slots.Holds(c))
            && forall d :: d != c ==> Same(s, t, d)
  {
    Slots.ResumeKeeps(s.slots, c);
    var t := s.(slots := Slots.Resume(s.slots, c));
    assert CallOk(s, c);
    assert forall d :: d != c ==> Same(s, t, d);
    forall d | d != c ensures CallOk(t, d) { assert CallOk(s, d) && Same(s, t, d); }
    ProceedKeeps(t, c, fails);
    forall d | d != c ensures Same(s, Continue(s, c, fails), d) {
      assert Same(s, t, d) && Same(t, Proceed(t, c, fails), d);
    }
  }

  lemma DisposeBeginKeeps(s: State)
    requires Inv(s)
    ensures Inv(DisposeBegin(s))
  {
    Slots.FailAllKeeps(s.slots);
    var t := DisposeBegin(s);
    forall c ensures CallOk(t, c) { assert CallOk(s, c); }
  }

  lemma TaskKeeps(s: State, c: nat, task: Task)
    requires Inv(s) && c in s.tasks
    requires task.released == s.tasks[c].released && (s.tasks[c].aborted ==> task.aborted)
    requires (task.released || !task.registered ==> task.done) && (s.tasks[c].done ==> task.done)
    ensures Inv(s.(tasks := s.tasks[c := task]))
  {
    assert CallOk(s, c);
    OnlyOneCall(s, s.(tasks := s.tasks[c := task]), c);
  }

  lemma ReleaseCallbackKeeps(s: State, c: nat)
    requires Inv(s) && Enabled(s, ReleaseCallback(c))
    ensures s.slots.inUse > 0 && Inv(Apply(s, ReleaseCallback(c)).value)
    ensures Apply(s, ReleaseCallback(c)).value.slots.size == s.slots.size
    ensures forall d :: d != c ==> Same(s, Apply(s, ReleaseCallback(c)).value, d)
  {
    assert CallOk(s, c);
    ReleaseFrame(s.slots, c);
    OnlyOneCall(s, Apply(s, ReleaseCallback(c)).value, c);
  }

  lemma CancelWaitingKeeps(s: State, c: nat)
    requires Inv(s) && s.IsWaiting(c)
    ensures Inv(s.(slots := Slots.Cancel(s.slots, c)))
  {
    Slots.CancelKeeps(s.slots, c);
    assert CallOk(s, c);
    OnlyOneCall(s, s.(slots := Slots.Cancel(s.slots, c)), c);
  }

  /** No enabled stretch raises, and each keeps the invariant. */
  lemma StepKeeps(s: State, step: Step)
    requires Inv(s) && Enabled(s, step)
    ensures Apply(s, step).Some? && Inv(Apply(s, step).value)
    ensures Apply(s, step).value.slots.size == s.slots.size
  {
    match step
    case Call(fails) => BeginKeeps(s, fails);
    case CancelWaiting(c) => CancelWaitingKeeps(s, c);
    case ResumeCall(c, fails) => ContinueKeeps(s, c, fails);
    case Abandon(c) => assert CallOk(s, c); TaskKeeps(s, c, Abort(s.tasks[c]));
    case TaskEnds(c) => assert CallOk(s, c); TaskKeeps(s, c, s.tasks[c].(done := true));
    case DiscardCallback(c) => TaskKeeps(s, c, s.tasks[c].(registered := false));
    case ReleaseCallback(c) => ReleaseCallbackKeeps(s, c);
    case BeginDispose => DisposeBeginKeeps(s);
    case EndDispose =>
      var t := Apply(s, step).value;
      forall c ensures CallOk(t, c) { assert CallOk(s, c); }
  }

  lemma {:induction false} RunKeeps(size: nat, states: seq<State>, steps: seq<Step>, i: nat)
    requires IsRun(size, states, steps) && i < |states|
    ensures Inv(states[i]) && states[i].slots.size == size
    ensures i < |steps| ==> Apply(states[i], steps[i]).Some?
  {
    if i == 0 {
      assert Slots.Holders(states[0].slots) == {} && Slots.Reserved(states[0].slots) == {};
    } else {
      RunKeeps(size, states, steps, i - 1);
      StepKeeps(states[i - 1], steps[i - 1]);
    }
    if i < |steps| { StepKeeps(states[i], steps[i]); }
  }

  // ----- what every run guarantees -----

  ghost function LiveTasks(s: State): set<nat> {
    set c | c in s.tasks && !s.tasks[c].done
  }

  /** The connections in use never exceed the pool size: a task keeps its slot
      until it has ended, whatever became of its caller. */
  lemma LiveTasksAreBounded(size: nat, states: seq<State>, steps: seq<Step>, i: nat)
    requires IsRun(size, states, steps) && i < |states|
    ensures |LiveTasks(states[i])| <= size
  {
    RunKeeps(size, states, steps, i);
    var s := states[i];
    assert LiveTasks(s) <= Slots.Holders(s.slots) by {
      forall c | c in LiveTasks(s) ensures c in Slots.Holders(s.slots) {
        assert CallOk(s, c);
      }
    }
    SubsetSize(LiveTasks(s), Slots.Holders(s.slots));
  }

  lemma {:induction false} SubsetSize(a: set<nat>, b: set<nat>)
    requires a <= b
    ensures |a| <= |b|
  {
    assert |b - a| == |b| - |a|;
  }

  /** No task is created between the start and the end of a disposal, and
      whatever still runs then has been told to stop. */
  lemma NothingStartsDuringDispose(size: nat, states: seq<State>, steps: seq<Step>, i: nat, c: nat)
    requires IsRun(size, states, steps) && i < |steps|
    ensures c in states[i + 1].tasks && c !in states[i].tasks ==>
              states[i].disposing == 0 && states[i + 1].disposing == 0
    ensures states[i].disposing > 0 && states[i].Live(c) ==> states[i].tasks[c].aborted
  {
    RunKeeps(size, states, steps, i);
    var s, step := states[i], steps[i];
    assert CallOk(s, c);
    match step
    case Call(fails) => BeginKeeps(s, fails);
    case ResumeCall(d, fails) => ContinueKeeps(s, d, fails);
    case _ =>
  }

  /** A task that was just started, with its slot. */
  ghost predicate Started(s: State, c: nat) {
    s.slots.Holds(c) && s.Live(c) && s.tasks[c].registered && !s.tasks[c].aborted && !s.tasks[c].released
  }

  /** A call that is over without a task, its slot free again or with the oldest waiter:
      nobody waits while a slot is free. */
  ghost predicate OverWithoutTask(s: State, c: nat) {
    && c in s.slots.calls && s.slots.calls[c].Ended? && c !in s.tasks
    && forall d :: s.slots.Pending(d) ==> s.slots.inUse == s.slots.size
  }

  /** What becomes of a new call. While a disposal runs it changes nothing. Otherwise, with
      a free slot, it starts its task, or gives the slot back if the task cannot be
      created; with none it waits. */
  lemma NewCall(size: nat, states: seq<State>, steps: seq<Step>, i: nat)
    requires IsRun(size, states, steps) && i < |steps| && steps[i].Call?
    ensures var s, t, c := states[i], states[i + 1], states[i].slots.arrivals;
            if s.disposing > 0 then t == s
            else
              && t.Epoch(c) == s.disposals == t.disposals
              && (if s.slots.inUse == size then t.slots.Pending(c) && c !in t.tasks
                  else if steps[i].fails then OverWithoutTask(t, c)
                  else Started(t, c) && t.slots.inUse == s.slots.inUse + 1)
              && forall d :: d != c ==> Same(s, t, d)
  {
    RunKeeps(size, states, steps, i);
    RunKeeps(size, states, steps, i + 1);
    var s, t, c := states[i], states[i + 1], states[i].slots.arrivals;
    assert CallOk(s, c) && CallOk(t, c);
    BeginKeeps(s, steps[i].fails);
    if s.disposing == 0 && s.slots.inUse < size && steps[i].fails {
      var u := s.(slots := Slots.Enter(s.slots), epochs := s.epochs[c := s.disposals]);
      Slots.EnterKeeps(s.slots);
      ReleaseFrame(u.slots, c);
    }
  }

  /** What becomes of a waiting call that runs again. Handed a slot, not cancelled, and
      with no disposal begun since it called, it starts its task unless that cannot be
      created; in every other case it is over without one. */
  lemma ResumedCall(size: nat, states: seq<State>, steps: seq<Step>, i: nat)
    requires IsRun(size, states, steps) && i < |steps| && steps[i].ResumeCall?
    ensures var s, t, c := states[i], states[i + 1], steps[i].c;
            && (if s.slots.HandedOver(c) && !s.slots.calls[c].cancelled && s.Epoch(c) == s.disposals && !steps[i].fails
                then Started(t, c) && t.slots.inUse == s.slots.inUse
                else OverWithoutTask(t, c))
            && forall d :: d != c ==> Same(s, t, d)
  {
    RunKeeps(size, states, steps, i);
    RunKeeps(size, states, steps, i + 1);
    var s, t, c := states[i], states[i + 1], steps[i].c;
    assert CallOk(s, c) && CallOk(t, c);
    ContinueKeeps(s, c, steps[i].fails);
    if s.slots.HandedOver(c) && !s.slots.calls[c].cancelled {
      var u := Slots.Resume(s.slots, c);
      Slots.ResumeKeeps(s.slots, c);
      ReleaseFrame(u, c);
    } else {
      LeaveFrame(s.slots, c);
    }
  }

  /** What becomes of a task: abandoned by its caller it is told to stop and keeps its
      slot; ended, it keeps the slot until its callback gives it back. */
  lemma TaskLife(size: nat, states: seq<State>, steps: seq<Step>, i: nat)
    requires IsRun(size, states, steps) && i < |steps|
    ensures var s, t, step := states[i], states[i + 1], steps[i];
            && (step.Abandon? ==> t.slots == s.slots && (s.Live(step.c) ==> t.Live(step.c) && t.tasks[step.c].aborted))
            && (step.TaskEnds? ==> t.slots == s.slots && !t.Live(step.c) && t.slots.Holds(step.c))
            && (step.ReleaseCallback? ==> step.c in t.slots.calls && t.slots.calls[step.c].Ended?
                                          && step.c in t.tasks && t.tasks[step.c].released
                                          && forall d :: t.slots.Pending(d) ==> t.slots.inUse == t.slots.size)
  {
    RunKeeps(size, states, steps, i);
    RunKeeps(size, states, steps, i + 1);
    if !steps[i].Call? && !steps[i].BeginDispose? && !steps[i].EndDispose? { assert CallOk(states[i], steps[i].c); }
    if steps[i].ReleaseCallback? { ReleaseFrame(states[i].slots, steps[i].c); }
  }

  ghost predicate NobodyQueues(s: State) {
    s.disposing > 0 ==> forall c :: !s.slots.Pending(c)
  }

  lemma NobodyQueuesStays(s: State, step: Step)
    requires Inv(s) && Enabled(s, step) && NobodyQueues(s)
    ensures Apply(s, step).Some? && NobodyQueues(Apply(s, step).value)
  {
    StepKeeps(s, step);
    if step.BeginDispose? {
      Slots.FailAllKeeps(s.slots);
    } else if s.disposing == 0 {
      assert Apply(s, step).value.disposing == 0;
    } else {
      forall c ensures !Apply(s, step).value.slots.Pending(c) {
        assert !s.slots.Pending(c);
        if step.ReleaseCallback? || step.ResumeCall? { ReleasesAddNobody(s, step, c); }
      }
    }
  }

  lemma ReleasesAddNobody(s: State, step: Step, c: nat)
    requires Inv(s) && Enabled(s, step) && (step.ReleaseCallback? || step.ResumeCall?) && Apply(s, step).Some?
    ensures Apply(s, step).value.slots.Pending(c) ==> s.slots.Pending(c)
  {
    if s.slots.inUse > 0 {
      Slots.GiveBackFrame(s.slots, step.c, c);
      if step.ResumeCall? && s.slots.HandedOver(step.c) && !s.slots.calls[step.c].cancelled {
        Slots.GiveBackFrame(Slots.Resume(s.slots, step.c), step.c, c);
      }
    }
  }

  /** While a disposal runs nobody waits for a slot: those who did were failed when it
      began, and nobody joins them. */
  lemma {:induction false} NobodyQueuesDuringDispose(size: nat, states: seq<State>, steps: seq<Step>, i: nat, c: nat)
    requires IsRun(size, states, steps) && i < |states| && states[i].disposing > 0
    ensures !states[i].slots.Pending(c)
  {
    RunsQueueNobody(size, states, steps, i);
  }

  lemma {:induction false} RunsQueueNobody(size: nat, states: seq<State>, steps: seq<Step>, i: nat)
    requires IsRun(size, states, steps) && i < |states|
    ensures NobodyQueues(states[i])
  {
    if i > 0 {
      RunsQueueNobody(size, states, steps, i - 1);
      RunKeeps(size, states, steps, i - 1);
      NobodyQueuesStays(states[i - 1], steps[i - 1]);
    }
  }

  /** Call `c` has waited across the start of a disposal, or is over without a task. */
  ghost predicate Doomed(s: State, c: nat) {
    && c in s.slots.calls && c !in s.tasks && !s.slots.Holds(c)
    && (s.IsWaiting(c) ==> s.Epoch(c) < s.disposals)
  }

  lemma DoomedStays(s: State, step: Step, c: nat)
    requires Inv(s) && Doomed(s, c) && Enabled(s, step)
    ensures Apply(s, step).Some? && Doomed(Apply(s, step).value, c)
  {
    assert CallOk(s, c);
    StepKeeps(s, step);
    match step
    case Call(fails) => BeginKeeps(s, fails); assert Same(s, Begin(s, fails), c);
    case ResumeCall(d, fails) =>
      ContinueKeeps(s, d, fails);
      if d != c { assert Same(s, Continue(s, d, fails), c); }
    case ReleaseCallback(d) =>
      ReleaseCallbackKeeps(s, d);
      assert Same(s, Apply(s, step).value, c);
    case BeginDispose => Slots.FailAllKeeps(s.slots);
    case _ =>
  }

  /** A call that is waiting when a disposal begins never starts a task and never
      holds a slot afterwards, in every continuation of the run. */
  lemma {:induction false} SpanningCallStartsNothing(
      size: nat, states: seq<State>, steps: seq<Step>, i: nat, j: nat, c: nat)
    requires IsRun(size, states, steps) && i < j < |states|
    requires steps[i].BeginDispose? && states[i].IsWaiting(c)
    ensures c !in states[j].tasks && !states[j].slots.Holds(c)
    ensures Doomed(states[j], c)
    decreases j
  {
    if j == i + 1 {
      RunKeeps(size, states, steps, i);
      assert CallOk(states[i], c);
      Slots.FailAllKeeps(states[i].slots);
    } else {
      SpanningCallStartsNothing(size, states, steps, i, j - 1, c);
      RunKeeps(size, states, steps, j - 1);
      DoomedStays(states[j - 1], steps[j - 1], c);
    }
  }

  // ----- the object itself -----

  /** `Database` with the fields that carry the protocol. Each method is one
      atomic stretch of the source and refines the function of that stretch. */
  class Pool {
    const gate: Slots.Gate
    var disposing: nat
    var disposals: nat
    var epochs: map<nat, nat>
    var tasks: map<nat, Task>

    ghost function View(): State
      reads this, gate
    {
      State(gate.View(), disposing, disposals, epochs, tasks)
    }

    constructor (size: nat)
      ensures View() == Initial(size) && fresh(gate)
    {
      gate := new Slots.Gate(size);
      disposing, disposals, epochs, tasks := 0, 0, map[], map[];
    }

    /** The slot of call `c` goes back. */
    method GiveSlotBack(c: nat)
      requires gate.inUse > 0
      modifies gate
      ensures gate.View() == Slots.GiveBack(old(gate.View()), c)
    {
      gate.calls := gate.calls[c := Slots.Ended];
      var _ := gate.Release();
    }

    method StartTask(c: nat, fails: bool)
      requires gate.inUse > 0
      modifies this, gate
      ensures View() == Proceed(old(View()), c, fails)
    {
      if disposals != (if c in epochs then epochs[c] else 0) || fails {
        GiveSlotBack(c);
      } else {
        tasks := tasks[c := Task(false, false, true, false)];
      }
    }

    /** A new call; `refused` because a disposal is running. */
    method BeginCall(fails: bool) returns (refused: bool)
      modifies this, gate
      ensures refused == (old(disposing) > 0)
      ensures View() == Begin(old(View()), fails)
    {
      if disposing > 0 {
        return true;
      }
      ghost var before := View();
      epochs := epochs[gate.arrivals := disposals];
      var c, taken := gate.Acquire();
      assert View() == before.(slots := Slots.Enter(before.slots), epochs := before.epochs[c := before.disposals]);
      if taken {
        StartTask(c, fails);
      }
      return false;
    }

    method ContinueCall(c: nat, fails: bool)
      requires Inv(View()) && Enabled(View(), ResumeCall(c, fails))
      modifies this, gate
      ensures old(View()).slots.HandedOver(c) ==> old(View()).slots.inUse > 0
      ensures View() == Continue(old(View()), c, fails)
      ensures Inv(View())
    {
      ContinueKeeps(View(), c, fails);
      ghost var before := View();
      var taken := gate.Continue(c);
      assert View() == before.(slots := Slots.Resume(before.slots, c));
      if taken {
        StartTask(c, fails);
      }
    }

    method ReleaseCallback(c: nat)
      requires Inv(View()) && Enabled(View(), Step.ReleaseCallback(c))
      modifies this, gate
      ensures Apply(old(View()), Step.ReleaseCallback(c)) == Some(View()) && Inv(View())
    {
      ReleaseCallbackKeeps(View(), c);
      GiveSlotBack(c);
      tasks := tasks[c := tasks[c].(released := true)];
    }

    /** `dispose()` up to its first await: every waiter fails, and every
        registered task is aborted, one after the other. */
    method StartDispose()
      modifies this, gate
      ensures View() == DisposeBegin(old(View()))
    {
      ghost var before := View();
      disposals, disposing := disposals + 1, disposing + 1;
      gate.FailWaiters();
      var probes := set c | c in tasks && tasks[c].registered;
      var todo := probes;
      while todo != {}
        invariant todo <= probes
        invariant View() == before.(disposals := before.disposals + 1, disposing := before.disposing + 1,
                                    slots := Slots.FailAll(before.slots), tasks := tasks)
        invariant tasks.Keys == before.tasks.Keys
        invariant forall c :: c in tasks ==>
          tasks[c] == if c in probes && c !in todo then Abort(before.tasks[c]) else before.tasks[c]
        decreases |todo|
      {
        var c :| c in todo;
        tasks := tasks[c := Abort(tasks[c])];
        todo := todo - {c};
      }
    }
  }
}

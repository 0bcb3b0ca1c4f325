/**
 Signalling a candidate's process group without ever hitting a stranger
 (benchmarks/worktree_runner.py, `_Leader`).

 The kernel's side is modelled with its own rules: a number is given to a new
 process only while no process uses it as pid, group or session number; children
 inherit group and session; `setsid` and `setpgid` have their usual guards. Every
 process has a `born` serial that is never reused and that no program can see.
 A group's identity is the `born` of the process whose pid named it, so two
 groups that have had the same number are told apart.
 */
module ProcessGroup {
  import opened Options

  datatype Process = Process(
    pid: nat, born: nat, start: nat, zombie: bool, child: bool,
    pgrp: nat, groupBorn: nat,
    sid: nat, sessionBorn: nat)

  /** `issued` remembers which process each (pid, start time) ever named. */
  datatype Kernel = Kernel(
    procs: map<nat, Process>,
    issued: map<(nat, nat), nat>,
    clock: nat,
    serial: nat)

  /** One line of the process table, as the runner reads it. */
  datatype Row = Row(zombie: bool, pgrp: nat, start: nat)

  datatype Leader = Leader(
    pgid: nat,
    start: Option<nat>,
    reaped: bool,                // `process.returncode is not None`
    released: bool,
    statusLost: bool,
    members: map<nat, nat>)

  // ----- the runner's code -----

  /** `refresh`: everything seen in the group is remembered, first sight first. */
  function Record(l: Leader, table: map<nat, Row>): Leader {
    if l.released then l
    else l.(members := Seen(table, l.pgid) + l.members)
  }

  function Seen(table: map<nat, Row>, pgid: nat): map<nat, nat> {
    map pid | pid in table && table[pid].pgrp == pgid :: table[pid].start
  }

  /** `_release`: a last look, then the number counts as free. */
  function Release(l: Leader, table: map<nat, Row>, lost: bool): Leader {
    Record(l, table).(released := true, statusLost := l.statusLost || lost)
  }

  predicate Owns(l: Leader, pid: nat, row: Row) {
    row.pgrp == l.pgid && (!l.released || (pid in l.members && l.members[pid] == row.start))
  }

  /** `signal_group` up to the decision: the leader's new state, and whether the
      signal is sent. `ours` is what `_still_ours` answers. */
  function Decide(l: Leader, table: map<nat, Row>, ours: bool): (Leader, bool) {
    if l.start.None? then
      (l, false)
    else
      var m := if !l.released && (l.reaped || !ours)
               then l.(released := true, statusLost := l.statusLost || !l.reaped)
               else l;
      (m, !m.released || exists pid :: pid in table && !table[pid].zombie && Owns(m, pid, table[pid]))
  }

  // ----- the system -----

  datatype System = System(kernel: Kernel, leader: Leader, lead: nat)

  datatype Step =
    | Tick
    | Fork(parent: nat, pid: nat, child: bool)
    | SetSid(b: nat)
    | SetPgid(b: nat)
    | Join(b: nat, other: nat)
    | Exit(b: nat)
    | Reap(b: nat)                                    // by anyone
    | Refresh(table: map<nat, Row>)
    | Vanished(table: map<nat, Row>, lost: bool)      // `has_exited` finds it gone
    | ReapLeader                                      // `reap` collects the status
    | LeaderMissing                                   // `reap` finds it gone
    | Signal(table: map<nat, Row>, readable: bool)

  /** The table shows processes that exist; it may miss some. */
  predicate Shows(k: Kernel, table: map<nat, Row>) {
    forall pid :: pid in table ==>
      && (pid, table[pid].start) in k.issued
      && var b := k.issued[(pid, table[pid].start)];
         && b in k.procs
         && k.procs[b].pid == pid && k.procs[b].start == table[pid].start
         && k.procs[b].pgrp == table[pid].pgrp && k.procs[b].zombie == table[pid].zombie
  }

  /** `_is_unreaped_child`: an unreaped child has this pid and this start time.
      `readable` is false where the start time could not be read. */
  predicate StillOurs(k: Kernel, l: Leader, readable: bool) {
    && readable && l.start.Some?
    && exists b :: b in k.procs && k.procs[b].pid == l.pgid && k.procs[b].child && k.procs[b].start == l.start.value
  }

  predicate Free(k: Kernel, n: nat) {
    forall b :: b in k.procs ==> k.procs[b].pid != n && k.procs[b].pgrp != n && k.procs[b].sid != n
  }

  /** Whoever is in a group of that number is in the candidate's. */
  predicate StillTheirs(s: System) {
    forall b :: b in s.kernel.procs && s.kernel.procs[b].pgrp == s.leader.pgid ==> s.kernel.procs[b].groupBorn == s.lead
  }

  predicate Runs(k: Kernel, b: nat) {
    b in k.procs && !k.procs[b].zombie
  }

  predicate Enabled(s: System, step: Step) {
    var k := s.kernel;
    match step
    case Tick => true
    case Fork(parent, pid, _) =>
      && Runs(k, parent) && Free(k, pid)
      // (pid, start time) names one process ever
      && (pid, k.clock) !in k.issued
    case SetSid(b) => Runs(k, b) && forall a :: a in k.procs ==> k.procs[a].pgrp != k.procs[b].pid
    case SetPgid(b) => Runs(k, b) && k.procs[b].sid != k.procs[b].pid
    case Join(b, other) =>
      Runs(k, b) && k.procs[b].sid != k.procs[b].pid && other in k.procs && k.procs[other].sid == k.procs[b].sid
    case Exit(b) => Runs(k, b)
    case Reap(b) => b in k.procs && k.procs[b].zombie
    // the one hypothesis on timing: the runner, while it takes the number for its own,
    // does not look at the table after the number has gone to another group
    case Refresh(table) => Shows(k, table) && (s.leader.released || StillTheirs(s))
    case Vanished(table, _) => Shows(k, table) && (s.leader.released || StillTheirs(s))
    case ReapLeader => s.lead in k.procs && k.procs[s.lead].zombie
    case LeaderMissing => true
    case Signal(table, _) => Shows(k, table)
  }

  function Put(k: Kernel, p: Process): Kernel {
    k.(procs := k.procs[p.born := p])
  }

  function Apply(s: System, step: Step): System
    requires Enabled(s, step)
  {
    var k := s.kernel;
    match step
    case Tick => s.(kernel := k.(clock := k.clock + 1))
    case Fork(parent, pid, child) =>
      var p := k.procs[parent].(pid := pid, born := k.serial, start := k.clock, child := child);
      s.(kernel := Put(k, p).(issued := k.issued[(pid, k.clock) := k.serial], serial := k.serial + 1))
    case SetSid(b) =>
      var p := k.procs[b];
      s.(kernel := Put(k, p.(pgrp := p.pid, groupBorn := p.born, sid := p.pid, sessionBorn := p.born)))
    case SetPgid(b) =>
      var p := k.procs[b];
      s.(kernel := Put(k, p.(pgrp := p.pid, groupBorn := p.born)))
    case Join(b, other) =>
      s.(kernel := Put(k, k.procs[b].(pgrp := k.procs[other].pgrp, groupBorn := k.procs[other].groupBorn)))
    case Exit(b) => s.(kernel := Put(k, k.procs[b].(zombie := true)))
    case Reap(b) => s.(kernel := k.(procs := k.procs - {b}))
    case Refresh(table) => s.(leader := Record(s.leader, table))
    case Vanished(table, lost) => s.(leader := Release(s.leader, table, lost))
    case ReapLeader =>
      s.(kernel := k.(procs := k.procs - {s.lead}), leader := s.leader.(reaped := true, released := true))
    case LeaderMissing => s.(leader := s.leader.(reaped := true, released := true, statusLost := true))
    case Signal(table, readable) =>
      s.(leader := Decide(s.leader, table, StillOurs(k, s.leader, readable)).0)
  }

  /** The candidate was just launched in a session of its own. */
  ghost predicate Launched(s: System) {
    && KernelOk(s.kernel)
    && s.lead in s.kernel.procs
    && var p := s.kernel.procs[s.lead];
       && p.pid == s.leader.pgid == p.pgrp == p.sid
       && p.born == p.groupBorn == p.sessionBorn == s.lead && p.child
       && (s.leader.start == None || s.leader.start == Some(p.start))
       && !s.leader.released && s.leader.members == map[]
  }

  ghost predicate IsRun(states: seq<System>, steps: seq<Step>) {
    && |states| == |steps| + 1
    && Launched(states[0])
    && forall i :: 0 <= i < |steps| ==>
         Enabled(states[i], steps[i]) && states[i + 1] == Apply(states[i], steps[i])
  }

  // ----- what the kernel guarantees -----

  /** A number in use means one thing only. */
  predicate Agree(p: Process, q: Process) {
    && (p.pid == q.pid ==> p.born == q.born)
    && (p.pid == q.pgrp ==> p.born == q.groupBorn && p.sid == q.sid)
    && (p.pid == q.sid ==> p.born == q.sessionBorn)
    && (p.pgrp == q.pgrp ==> p.groupBorn == q.groupBorn && p.sid == q.sid)
    && (p.pgrp == q.sid ==> p.groupBorn == q.sessionBorn)
    && (p.sid == q.sid ==> p.sessionBorn == q.sessionBorn)
  }

  predicate ProcessOk(k: Kernel, b: nat)
    requires b in k.procs
  {
    var p := k.procs[b];
    && p.born == b < k.serial
    && (p.pid, p.start) in k.issued && k.issued[(p.pid, p.start)] == b
    && (p.sid == p.pid ==> p.pgrp == p.pid)
  }

  ghost predicate KernelOk(k: Kernel) {
    && (forall b :: b in k.procs ==> ProcessOk(k, b))
    && (forall key :: key in k.issued ==> k.issued[key] < k.serial)
    && (forall a, b :: a in k.procs && b in k.procs ==> Agree(k.procs[a], k.procs[b]))
  }

  /** Replacing one process keeps the kernel consistent if the new one agrees
      with all the others. */
  lemma PutOk(k: Kernel, p: Process)
    requires KernelOk(k) && p.born in k.procs
    requires ProcessOk(Put(k, p), p.born) && Agree(p, p)
    requires forall a :: a in k.procs && a != p.born ==> Agree(p, k.procs[a]) && Agree(k.procs[a], p)
    ensures KernelOk(Put(k, p))
  {
    forall b | b in Put(k, p).procs ensures ProcessOk(Put(k, p), b) {
      if b != p.born { assert ProcessOk(k, b); }
    }
  }

  lemma ForkOk(s: System, parent: nat, pid: nat, child: bool)
    requires KernelOk(s.kernel) && Enabled(s, Fork(parent, pid, child))
    ensures KernelOk(Apply(s, Fork(parent, pid, child)).kernel)
  {
    var k, t := s.kernel, Apply(s, Fork(parent, pid, child)).kernel;
    var q := k.procs[parent];
    var p := t.procs[k.serial];
    assert ProcessOk(k, parent) && Agree(q, q);
    forall b | b in t.procs ensures ProcessOk(t, b) {
      if b in k.procs { assert ProcessOk(k, b); }
    }
    assert forall a :: a in k.procs ==> a != k.serial && t.procs[a] == k.procs[a] by {
      forall a | a in k.procs ensures a != k.serial { assert ProcessOk(k, a); }
    }
    forall a | a in k.procs ensures Agree(p, k.procs[a]) && Agree(k.procs[a], p) {
      assert Agree(q, k.procs[a]) && Agree(k.procs[a], q);
    }
  }

  lemma StepKeepsKernel(s: System, step: Step)
    requires KernelOk(s.kernel) && Enabled(s, step)
    ensures KernelOk(Apply(s, step).kernel)
  {
    var k, t := s.kernel, Apply(s, step).kernel;
    match step
    case Fork(parent, pid, child) => ForkOk(s, parent, pid, child);
    case SetSid(b) => assert ProcessOk(k, b); PutOk(k, t.procs[b]);
    case SetPgid(b) => assert ProcessOk(k, b); PutOk(k, t.procs[b]);
    case Join(b, other) => assert ProcessOk(k, b); assert ProcessOk(k, other); PutOk(k, t.procs[b]);
    case Exit(b) => assert ProcessOk(k, b); PutOk(k, t.procs[b]);
    case _ =>
      forall b | b in t.procs ensures ProcessOk(t, b) { assert ProcessOk(k, b); }
  }

  // ----- what the runner knows -----

  /** A process that was once a member: still in the candidate's session, or in
      a session of its own that it cannot leave. */
  predicate Tied(s: System, p: Process) {
    (p.sid == s.leader.pgid && p.sessionBorn == s.lead) || (p.sid == p.pid && p.pid != s.leader.pgid)
  }

  /** What holds of one existing process. */
  predicate Placed(s: System, p: Process) {
    && (p.born == s.lead ==>
          p.child && p.pid == p.sid == s.leader.pgid && (s.leader.start.Some? ==> p.start == s.leader.start.value))
    && (p.pgrp == s.leader.pgid && p.groupBorn == s.lead ==> p.sid == s.leader.pgid && p.sessionBorn == s.lead)
  }

  predicate MemberOk(s: System, pid: nat)
    requires pid in s.leader.members
  {
    var key := (pid, s.leader.members[pid]);
    && key in s.kernel.issued
    && (s.kernel.issued[key] in s.kernel.procs ==> Tied(s, s.kernel.procs[s.kernel.issued[key]]))
  }

  ghost predicate Inv(s: System) {
    && KernelOk(s.kernel)
    && s.lead < s.kernel.serial
    && (s.leader.start.Some? ==>
          var key := (s.leader.pgid, s.leader.start.value); key in s.kernel.issued && s.kernel.issued[key] == s.lead)
    && (forall b :: b in s.kernel.procs ==> Placed(s, s.kernel.procs[b]))
    && (forall pid :: pid in s.leader.members ==> MemberOk(s, pid))
  }

  lemma LaunchedOk(s: System)
    requires Launched(s)
    ensures Inv(s)
  {
    var k := s.kernel;
    assert ProcessOk(k, s.lead);
    forall b | b in k.procs ensures Placed(s, k.procs[b]) {
      assert Agree(k.procs[b], k.procs[s.lead]) && Agree(k.procs[s.lead], k.procs[b]);
      assert ProcessOk(k, b);
    }
  }

  /** A kernel step that replaces, adds or removes process `b`. */
  lemma MoveKeeps(s: System, t: System, b: nat)
    requires Inv(s) && KernelOk(t.kernel) && t.lead == s.lead && t.leader == s.leader
    requires t.kernel.serial >= s.kernel.serial
    requires forall key :: key in s.kernel.issued ==>
               key in t.kernel.issued && t.kernel.issued[key] == s.kernel.issued[key]
    requires forall a :: a != b && a in t.kernel.procs ==> a in s.kernel.procs && t.kernel.procs[a] == s.kernel.procs[a]
    requires b in t.kernel.procs ==> Placed(t, t.kernel.procs[b])
    requires b in t.kernel.procs && b in s.kernel.procs && Tied(s, s.kernel.procs[b]) ==> Tied(t, t.kernel.procs[b])
    requires b in t.kernel.procs && b !in s.kernel.procs ==> b >= s.kernel.serial
    ensures Inv(t)
  {
    forall a | a in t.kernel.procs ensures Placed(t, t.kernel.procs[a]) {
      if a != b { assert Placed(s, s.kernel.procs[a]); }
    }
    forall pid | pid in t.leader.members ensures MemberOk(t, pid) {
      assert MemberOk(s, pid);
    }
  }

  lemma KernelStepKeeps(s: System, step: Step)
    requires Inv(s) && Enabled(s, step)
    requires step.Fork? || step.SetSid? || step.SetPgid? || step.Join? || step.Exit? || step.Reap?
    ensures Inv(Apply(s, step))
  {
    var k, t := s.kernel, Apply(s, step);
    StepKeepsKernel(s, step);
    match step
    case Fork(parent, pid, child) =>
      assert Placed(s, k.procs[parent]);
      assert ProcessOk(k, parent);
      MoveKeeps(s, t, k.serial);
    case SetSid(b) =>
      assert ProcessOk(k, b) && Placed(s, k.procs[b]) && Agree(k.procs[b], k.procs[b]);
      MoveKeeps(s, t, b);
    case SetPgid(b) =>
      assert ProcessOk(k, b) && Placed(s, k.procs[b]) && Agree(k.procs[b], k.procs[b]);
      MoveKeeps(s, t, b);
    case Join(b, other) =>
      assert ProcessOk(k, b) && Placed(s, k.procs[b]) && Placed(s, k.procs[other]);
      assert Agree(k.procs[b], k.procs[other]);
      MoveKeeps(s, t, b);
    case Exit(b) => assert Placed(s, k.procs[b]); MoveKeeps(s, t, b);
    case Reap(b) => MoveKeeps(s, t, b);
  }

  /** A change of the runner's own fields. */
  lemma LeaderStepKeeps(s: System, l: Leader, table: map<nat, Row>)
    requires Inv(s) && Shows(s.kernel, table)
    requires l.pgid == s.leader.pgid && l.start == s.leader.start && (s.leader.released ==> l.released)
    requires l.members == s.leader.members
             || (l.members == Record(s.leader, table).members && (s.leader.released || StillTheirs(s)))
    ensures Inv(s.(leader := l))
  {
    var k, t := s.kernel, s.(leader := l);
    forall b | b in k.procs ensures Placed(t, k.procs[b]) { assert Placed(s, k.procs[b]); }
    forall pid | pid in l.members ensures MemberOk(t, pid) {
      if pid in s.leader.members {
        assert MemberOk(s, pid);
      } else {
        assert Placed(s, k.procs[k.issued[(pid, table[pid].start)]]);
      }
    }
  }

  lemma StepKeeps(s: System, step: Step)
    requires Inv(s) && Enabled(s, step)
    ensures Inv(Apply(s, step)) && Apply(s, step).lead == s.lead && Apply(s, step).leader.pgid == s.leader.pgid
  {
    var t := Apply(s, step);
    match step
    case Tick => MoveKeeps(s, t, s.kernel.serial);
    case Refresh(table) => LeaderStepKeeps(s, t.leader, table);
    case Vanished(table, _) => LeaderStepKeeps(s, t.leader, table);
    case LeaderMissing => LeaderStepKeeps(s, t.leader, map[]);
    case Signal(table, _) => LeaderStepKeeps(s, t.leader, table);
    case ReapLeader =>
      KernelStepKeeps(s, Reap(s.lead));
      LeaderStepKeeps(Apply(s, Reap(s.lead)), t.leader, map[]);
    case _ => KernelStepKeeps(s, step);
  }

  lemma {:induction false} RunKeeps(states: seq<System>, steps: seq<Step>, i: nat)
    requires IsRun(states, steps) && i < |states|
    ensures Inv(states[i]) && states[i].lead == states[0].lead && states[i].leader.pgid == states[0].leader.pgid
  {
    if i == 0 {
      LaunchedOk(states[0]);
    } else {
      RunKeeps(states, steps, i - 1);
      StepKeeps(states[i - 1], steps[i - 1]);
    }
  }

  // ----- the guarantee -----

  /** Whom `killpg` reaches at this moment. */
  ghost function Reached(s: System): set<nat> {
    set b | b in s.kernel.procs && s.kernel.procs[b].pgrp == s.leader.pgid
  }

  predicate Sends(s: System, step: Step) {
    step.Signal? && Decide(s.leader, step.table, StillOurs(s.kernel, s.leader, step.readable)).1
  }

  /** One signal: the number still names the candidate's own group. */
  lemma SignalIsSafe(s: System, step: Step)
    requires Inv(s) && Enabled(s, step) && Sends(s, step)
    ensures forall b :: b in Reached(s) ==> s.kernel.procs[b].groupBorn == s.lead
  {
    var k, l := s.kernel, s.leader;
    var ours := StillOurs(k, l, step.readable);
    var m := Decide(l, step.table, ours).0;
    var w: nat;  // a process whose use of the number shows whose it is
    if !m.released {
      w :| w in k.procs && k.procs[w].pid == l.pgid && k.procs[w].start == l.start.value;
      assert ProcessOk(k, w);
    } else {
      var pid :| pid in step.table && !step.table[pid].zombie && Owns(m, pid, step.table[pid]);
      assert MemberOk(s, pid);
      w := k.issued[(pid, step.table[pid].start)];
      assert Tied(s, k.procs[w]) && ProcessOk(k, w);
    }
    forall b | b in Reached(s) ensures k.procs[b].groupBorn == s.lead {
      assert Agree(k.procs[w], k.procs[b]) && Agree(k.procs[b], k.procs[w]) && Agree(k.procs[w], k.procs[w]);
    }
  }

  /** In every run, whatever is forked, exits, is reaped by others or reuses
      numbers, a signal reaches only processes of the launched candidate's group. */
  lemma NoStrangerIsSignalled(states: seq<System>, steps: seq<Step>, i: nat)
    requires IsRun(states, steps) && i < |steps| && Sends(states[i], steps[i])
    ensures forall b :: b in Reached(states[i]) ==> states[i].kernel.procs[b].groupBorn == states[0].lead
  {
    RunKeeps(states, steps, i);
    SignalIsSafe(states[i], steps[i]);
  }

  /** Exactly when a signal is sent: the leader's start time is known, and either the
      number has not been given up, the runner has not reaped the leader, its start time
      can be read and the leader is still there unreaped; or the table shows a process
      living in the group that is on record with its start time. */
  lemma SignalledIff(states: seq<System>, steps: seq<Step>, i: nat)
    requires IsRun(states, steps) && i < |steps| && steps[i].Signal?
    ensures var s, table := states[i], steps[i].table;
            var check := !s.leader.reaped && steps[i].readable && s.lead in s.kernel.procs;
            && (Sends(s, steps[i]) <==>
                  && s.leader.start.Some?
                  && ((!s.leader.released && check)
                      || exists pid :: pid in table && !table[pid].zombie && table[pid].pgrp == s.leader.pgid
                                       && Recorded(s.leader, pid, table[pid].start)))
            && (states[i + 1].leader.released <==> s.leader.released || (s.leader.start.Some? && !check))
            && (states[i + 1].leader.statusLost <==>
                  s.leader.statusLost
                  || (states[i + 1].leader.released && !s.leader.released && !s.leader.reaped))
  {
    RunKeeps(states, steps, i);
    OursIsLeader(states[i], steps[i].readable);
    var s, table := states[i], steps[i].table;
    var l := s.leader.(released := true);
    assert forall pid :: pid in table ==>
             (Owns(l, pid, table[pid]) <==> table[pid].pgrp == l.pgid && Recorded(l, pid, table[pid].start));
  }

  /** The check of identity finds the leader and nobody else. */
  lemma OursIsLeader(s: System, readable: bool)
    requires Inv(s)
    ensures StillOurs(s.kernel, s.leader, readable) <==>
            readable && s.leader.start.Some? && s.lead in s.kernel.procs
  {
    var k := s.kernel;
    if StillOurs(k, s.leader, readable) {
      var b :| b in k.procs && k.procs[b].pid == s.leader.pgid && k.procs[b].child && k.procs[b].start == s.leader.start.value;
      assert ProcessOk(k, b);
    }
    if s.lead in k.procs { assert Placed(s, k.procs[s.lead]) && ProcessOk(k, s.lead); }
  }

  /** And it is not withheld while the leader is the runner's own unreaped child
      whose start time is known and readable. */
  lemma {:induction false} LivingLeaderIsSignalled(states: seq<System>, steps: seq<Step>, i: nat)
    requires IsRun(states, steps) && i < |steps| && steps[i].Signal? && steps[i].readable
    requires var s := states[i];
             s.leader.start.Some? && !s.leader.released && !s.leader.reaped && s.lead in s.kernel.procs
    ensures Sends(states[i], steps[i]) && states[i].lead in Reached(states[i])
  {
    RunKeeps(states, steps, i);
    var s := states[i];
    assert Placed(s, s.kernel.procs[s.lead]) && ProcessOk(s.kernel, s.lead);
  }

  /** Process `pid` of that start time is on record. */
  predicate Recorded(l: Leader, pid: nat, start: nat) {
    pid in l.members && l.members[pid] == start
  }

  /** What a look at the table records, the last one of `_release` included. */
  lemma LookRecords(s: System, step: Step, pid: nat)
    requires Enabled(s, step) && (step.Refresh? || step.Vanished?) && !s.leader.released
    requires pid in step.table && step.table[pid].pgrp == s.leader.pgid
    requires pid in s.leader.members ==> s.leader.members[pid] == step.table[pid].start
    ensures Recorded(Apply(s, step).leader, pid, step.table[pid].start)
  {
  }

  lemma {:induction false} RecordStays(states: seq<System>, steps: seq<Step>, i: nat, j: nat, pid: nat, start: nat)
    requires IsRun(states, steps) && i <= j < |states| && Recorded(states[i].leader, pid, start)
    ensures Recorded(states[j].leader, pid, start) && states[j].leader.start == states[i].leader.start
    decreases j
  {
    if i < j { RecordStays(states, steps, i, j - 1, pid, start); }
  }

  /** A process that a look found in the group, even the last look before the number was
      given up, makes every later signal go out while the table shows it living there,
      whoever was reaped meanwhile. Its number must not have been on record for an
      earlier process: the first sight of a number is the one that is kept. */
  lemma SeenMemberIsSignalled(states: seq<System>, steps: seq<Step>, i: nat, j: nat, pid: nat)
    requires IsRun(states, steps) && i < j < |steps| && (steps[i].Refresh? || steps[i].Vanished?) && steps[j].Signal?
    requires var s, table := states[i], steps[i].table;
             && !s.leader.released && s.leader.start.Some?
             && pid in table && table[pid].pgrp == s.leader.pgid
             && (pid in s.leader.members ==> s.leader.members[pid] == table[pid].start)
    requires var table := steps[j].table;
             && pid in table && table[pid].pgrp == states[j].leader.pgid && !table[pid].zombie
             && table[pid].start == steps[i].table[pid].start
    ensures Sends(states[j], steps[j])
  {
    LookRecords(states[i], steps[i], pid);
    RecordStays(states, steps, i + 1, j, pid, steps[i].table[pid].start);
  }

  // ----- the object itself -----

  /** The loop of `refresh`. */
  method SetDefaults(table: map<nat, Row>, pgid: nat, members: map<nat, nat>) returns (m: map<nat, nat>)
    ensures m == Seen(table, pgid) + members
  {
    m := members;
    var todo := table.Keys;
    while todo != {}
      invariant todo <= table.Keys
      invariant forall pid :: pid in m <==>
                  pid in members || (pid in table && pid !in todo && table[pid].pgrp == pgid)
      invariant forall pid :: pid in m ==>
                  m[pid] == if pid in members then members[pid] else table[pid].start
      decreases |todo|
    {
      var pid :| pid in todo;
      todo := todo - {pid};
      if table[pid].pgrp == pgid && pid !in m {
        m := m[pid := table[pid].start];
      }
    }
    assert m == Seen(table, pgid) + members;
  }

  /** `_Leader` with its fields. */
  class Supervisor {
    const pgid: nat
    const start: Option<nat>
    var reaped: bool
    var released: bool
    var statusLost: bool
    var members: map<nat, nat>

    ghost function View(): Leader
      reads this
    {
      Leader(pgid, start, reaped, released, statusLost, members)
    }

    constructor (pgid: nat, start: Option<nat>, table: map<nat, Row>)
      ensures View() == Record(Leader(pgid, start, false, false, false, map[]), table)
    {
      this.pgid, this.start := pgid, start;
      reaped, released, statusLost, members := false, false, false, map[];
      new;
      Refresh(table);
    }

    method Refresh(table: map<nat, Row>)
      modifies this
      ensures View() == Record(old(View()), table)
    {
      if !released {
        members := SetDefaults(table, pgid, members);
      }
    }

    /** `_release`. */
    method GiveUpNumber(table: map<nat, Row>, lost: bool)
      modifies this
      ensures View() == Release(old(View()), table, lost)
    {
      Refresh(table);
      released := true;
      statusLost := statusLost || lost;
    }

    /** `signal_group`: whether the group is signalled. */
    method SignalGroup(table: map<nat, Row>, ours: bool) returns (sent: bool)
      modifies this
      ensures (View(), sent) == Decide(old(View()), table, ours)
    {
      if start.None? {
        return false;
      }
      if !released && (reaped || !ours) {
        released := true;
        statusLost := statusLost || !reaped;
      }
      sent := !released;
      var todo := table.Keys;
      while !sent && todo != {}
        invariant todo <= table.Keys
        invariant sent ==> !released || exists pid :: pid in table && !table[pid].zombie && Owns(View(), pid, table[pid])
        invariant !sent ==> released && forall pid :: pid in table && pid !in todo ==>
                              table[pid].zombie || !Owns(View(), pid, table[pid])
        decreases |todo|
      {
        var pid :| pid in todo;
        todo := todo - {pid};
        var row := table[pid];
        sent := !row.zombie && row.pgrp == pgid && pid in members && members[pid] == row.start;
      }
    }
  }
}

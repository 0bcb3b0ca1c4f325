/**
 The lifecycle log of a worktree run (benchmarks/worktree_runner.py:
 `_append_to_log`).

 One append, from opening the file to closing it, is one step. The operating
 system may fail at every call, write fewer bytes than asked, and report at
 `close` that bytes it had taken are lost. Anybody else may put any file, or
 none, at the log's path between two appends.
 */
module LifecycleLog {
  import opened Options

  type Bytes = seq<bv8>
  type Inode = nat

  /** What is at the path. `ours` stands for a regular file, owned by the
      runner, with one link and no permission for group or others. */
  datatype File = File(inode: Inode, ours: bool, data: Bytes)

  /** `log_identity` and `log_size`, and the disk. */
  datatype State = State(identity: Option<Inode>, size: nat, file: Option<File>)

  /** What the operating system does during one append. `writes` are the counts
      that successive writes return; the write after the last of them fails. Of
      the bytes taken by a failing close only the first `kept` stay. */
  datatype Attempt = Attempt(opens: bool, inode: Inode, stats: bool, writes: seq<nat>, close: Close)
  datatype Close = Closes | Loses(kept: nat)

  datatype Outcome = Done | NotOpened | NotWritten | Refused | NotClosed

  // ----- one append -----

  /** A write takes no more than the bytes asked for, and maybe none. */
  function Taken(count: nat, left: nat): nat {
    if count < left then count else left
  }

  /** How many of `left` bytes the writes take before one fails. */
  function Written(left: nat, writes: seq<nat>): (n: nat)
    ensures n <= left
  {
    if left == 0 || writes == [] then 0
    else var n := Taken(writes[0], left); n + Written(left - n, writes[1..])
  }

  function Sum(counts: seq<nat>): nat {
    if counts == [] then 0 else counts[0] + Sum(counts[1..])
  }

  /** However many writes it takes: all bytes, if the writes offer that many, and
      otherwise as many as they offer. */
  lemma {:induction false} WrittenIsSum(left: nat, writes: seq<nat>)
    ensures Written(left, writes) == if Sum(writes) < left then Sum(writes) else left
    decreases |writes|
  {
    if left > 0 && writes != [] { WrittenIsSum(left - Taken(writes[0], left), writes[1..]); }
  }

  predicate Passes(s: State, f: File) {
    f.ours && (s.identity.Some? ==> s.identity.value == f.inode && |f.data| == s.size)
  }

  /** The file `open` gives, if it does: a new one for the first record, the
      one that is there for any other. */
  function Opened(s: State, a: Attempt): Option<File> {
    if !a.opens || s.identity.None? != s.file.None? then None
    else if s.file.None? then Some(File(a.inode, true, []))
    else s.file
  }

  function Append(s: State, line: Bytes, a: Attempt): (State, Outcome) {
    match Opened(s, a)
    case None => (s, NotOpened)
    case Some(f) =>
      if !a.stats then (s.(file := Some(f)), NotWritten)
      else if !Passes(s, f) then (s.(file := Some(f)), Refused)
      else
        var n := Written(|line|, a.writes);
        if n < |line| then (s.(file := Some(f.(data := f.data + line[..n]))), NotWritten)
        else
          var kept := if a.close.Loses? && a.close.kept < |line| then line[..a.close.kept] else line;
          (State(Some(f.inode), |f.data| + |line|, Some(f.(data := f.data + kept))),
           if a.close.Closes? then Done else NotClosed)
  }

  class RunLog {
    var identity: Option<Inode>
    var size: nat
    var file: Option<File>

    ghost function Model(): State
      reads this
    {
      State(identity, size, file)
    }

    /** The write loop. */
    method WriteAll(line: Bytes, writes: seq<nat>) returns (written: nat)
      requires file.Some?
      modifies this`file
      ensures written == Written(|line|, writes)
      ensures file == Some(old(file).value.(data := old(file).value.data + line[..written]))
    {
      written := 0;
      var k := 0;
      ghost var before := file.value;
      assert before.data + line[..0] == before.data;
      while written < |line| && k < |writes|
        invariant written <= |line| && 0 <= k <= |writes|
        invariant file == Some(before.(data := before.data + line[..written]))
        invariant written + Written(|line| - written, writes[k..]) == Written(|line|, writes)
      {
        var n := Taken(writes[k], |line| - written);
        ghost var was := file.value.data;
        file := Some(file.value.(data := file.value.data + line[written..written + n]));
        assert was + line[written..written + n] == before.data + line[..written + n];
        assert writes[k..][1..] == writes[k + 1..];
        written, k := written + n, k + 1;
      }
    }

    /** `_append_to_log`. */
    method AppendToLog(line: Bytes, a: Attempt) returns (outcome: Outcome)
      modifies this
      ensures (Model(), outcome) == Append(old(Model()), line, a)
    {
      var first := identity.None?;
      if !a.opens || (if first then file.Some? else file.None?) {
        return NotOpened;
      }
      if first {
        file := Some(File(a.inode, true, []));
      }
      if !a.stats {
        return NotWritten;
      }
      var info := file.value;
      if !info.ours || (!first && (Some(info.inode) != identity || |info.data| != size)) {
        return Refused;
      }
      var written := WriteAll(line, a.writes);
      if written < |line| {
        return NotWritten;
      }
      identity := Some(info.inode);
      size := |info.data| + |line|;
      assert line[..|line|] == line;
      if a.close.Loses? {
        if a.close.kept < |line| {
          file := Some(info.(data := info.data + line[..a.close.kept]));
        }
        return NotClosed;
      }
      return Done;
    }
  }

  // ----- one append, as seen from outside -----

  function Contents(s: State): Bytes {
    if s.file.None? then [] else s.file.value.data
  }

  /** The state the log can never leave by itself. */
  predicate Sealed(s: State) {
    match s.identity
    case None => s.file.Some?
    case Some(_) => s.file.None? || !Passes(s, s.file.value)
  }

  /** What tears a record: bytes of it, but not all, are written or survive the
      close; or the very first one leaves a file behind without being written. */
  predicate Tears(first: bool, line: Bytes, a: Attempt) {
    var n := Sum(a.writes);
    a.opens
    && if !a.stats then first
       else if n < |line| then first || n > 0
       else a.close.Loses? && a.close.kept < |line|
  }

  lemma SealedIsFinal(s: State, line: Bytes, a: Attempt)
    requires Sealed(s)
    ensures Append(s, line, a).0 == s && Append(s, line, a).1 != Done
  {
  }

  /** On a usable log an append succeeds exactly if the file can be opened, looked at and
      closed and the writes, however short, add up to the record; the file then ends with
      the whole record and the log is usable. */
  lemma SucceedsIff(s: State, line: Bytes, a: Attempt)
    requires !Sealed(s)
    ensures Append(s, line, a).1 == Done <==> a.opens && a.stats && Sum(a.writes) >= |line| && a.close.Closes?
    ensures Append(s, line, a).1 == Done ==>
              Contents(Append(s, line, a).0) == Contents(s) + line && !Sealed(Append(s, line, a).0)
  {
    WrittenIsSum(|line|, a.writes);
  }

  /** A log is sealed exactly if no record can be appended to it any more. */
  lemma SealedIsExact(s: State, line: Bytes)
    ensures !Sealed(s) <==> exists a: Attempt :: Append(s, line, a).1 == Done
  {
    var a := Attempt(true, 0, true, [|line|], Closes);
    assert |line| > 0 ==> Written(|line|, a.writes) == |line| + Written(0, []);
    if Sealed(s) {
      forall a: Attempt ensures Append(s, line, a).1 != Done { SealedIsFinal(s, line, a); }
    } else {
      assert Append(s, line, a).1 == Done;
    }
  }

  /** Part of a record: all of it only if it is empty. */
  predicate PartOf(tail: Bytes, line: Bytes) {
    tail <= line && (tail == line ==> line == [])
  }

  /** An append that does not tear its record does nothing or adds all of it,
      and the log stays usable; one that does adds part of it and seals the log. */
  lemma AppendCases(s: State, line: Bytes, a: Attempt)
    requires !Sealed(s)
    ensures var r, c := Append(s, line, a), Contents(s);
            if Tears(s.identity.None?, line, a) then
              Sealed(r.0) && r.1 != Done && |Contents(r.0)| >= |c|
              && Contents(r.0) == c + Contents(r.0)[|c|..] && PartOf(Contents(r.0)[|c|..], line)
            else
              !Sealed(r.0) && ((r.0 == s && r.1 != Done) || (Contents(r.0) == c + line && r.1 in {Done, NotClosed}))
  {
    var r, c := Append(s, line, a), Contents(s);
    WrittenIsSum(|line|, a.writes);
    if Tears(s.identity.None?, line, a) {
      var n := Written(|line|, a.writes);
      var k := if !a.stats then 0 else if n < |line| then n else a.close.kept;
      assert Contents(r.0) == c + line[..k];
      assert (c + line[..k])[|c|..] == line[..k];
    } else {
      assert c + [] == c && line[..0] == [];
    }
  }

  // ----- runs -----

  datatype Step = Record(line: Bytes, attempt: Attempt) | Outside(file: Option<File>)

  function Next(s: State, step: Step): State {
    match step
    case Record(line, a) => Append(s, line, a).0
    case Outside(f) => s.(file := f)
  }

  ghost predicate IsRun(states: seq<State>, steps: seq<Step>) {
    |states| == |steps| + 1 && forall i :: 0 <= i < |steps| ==> states[i + 1] == Next(states[i], steps[i])
  }

  ghost predicate Alone(steps: seq<Step>) {
    forall i :: 0 <= i < |steps| ==> steps[i].Record?
  }

  ghost function OutcomeOf(s: State, step: Step): Outcome
    requires step.Record?
  {
    Append(s, step.line, step.attempt).1
  }

  /** The bytes of the records that reached the file whole within `n` steps. */
  ghost function Whole(states: seq<State>, steps: seq<Step>, n: nat): Bytes
    requires n <= |steps| && |states| == |steps| + 1 && Alone(steps)
  {
    if n == 0 then []
    else
      Whole(states, steps, n - 1)
      + (if Contents(states[n]) == Contents(states[n - 1]) + steps[n - 1].line then steps[n - 1].line else [])
  }

  ghost predicate TearsAt(states: seq<State>, steps: seq<Step>, i: nat)
    requires i < |steps| < |states|
  {
    steps[i].Record? && Tears(states[i].identity.None?, steps[i].line, steps[i].attempt)
  }

  /** Nothing happened from `i` to `j`, and the append at `j` does not succeed. */
  ghost predicate Unchanged(states: seq<State>, steps: seq<Step>, i: nat, j: nat)
    requires i <= j <= |steps| && |states| == |steps| + 1
  {
    states[j] == states[i] && (j < |steps| && steps[j].Record? ==> OutcomeOf(states[j], steps[j]) != Done)
  }

  /** From a sealed state on, nothing changes. */
  lemma {:induction false} SealedForever(states: seq<State>, steps: seq<Step>, i: nat, j: nat)
    requires IsRun(states, steps) && i <= j <= |steps| && Sealed(states[i])
    requires forall k :: i <= k < j ==> steps[k].Record?
    ensures Unchanged(states, steps, i, j)
    decreases j
  {
    if j > i {
      SealedForever(states, steps, i, j - 1);
      SealedIsFinal(states[j - 1], steps[j - 1].line, steps[j - 1].attempt);
    }
    if j < |steps| && steps[j].Record? { SealedIsFinal(states[j], steps[j].line, steps[j].attempt); }
  }

  /** When nobody else writes, a log that starts usable stops being usable exactly
      when a record is torn. */
  lemma {:induction false} SealedIffTorn(states: seq<State>, steps: seq<Step>, n: nat)
    requires IsRun(states, steps) && Alone(steps) && !Sealed(states[0]) && n <= |steps|
    ensures Sealed(states[n]) <==> exists i: nat :: i < n && TearsAt(states, steps, i)
  {
    if n > 0 {
      SealedIffTorn(states, steps, n - 1);
      var s, step := states[n - 1], steps[n - 1];
      if Sealed(s) {
        SealedIsFinal(s, step.line, step.attempt);
      } else {
        AppendCases(s, step.line, step.attempt);
        assert TearsAt(states, steps, n - 1) == Sealed(states[n]);
      }
    }
  }

  lemma NothingAdded(c: Bytes, tail: Bytes, line: Bytes)
    ensures c + tail == c + line ==> tail == line
    ensures c + [] == c
  {
    assert (c + tail)[|c|..] == tail && (c + line)[|c|..] == line;
  }

  /** Only a record that is in the file whole adds to the whole ones. */
  lemma WholeAdds(states: seq<State>, steps: seq<Step>, n: nat, tail: Bytes)
    requires 0 < n <= |steps| && |states| == |steps| + 1 && Alone(steps)
    requires Contents(states[n]) == Contents(states[n - 1]) + tail
    ensures Whole(states, steps, n) == Whole(states, steps, n - 1) + if tail == steps[n - 1].line then tail else []
  {
    NothingAdded(Contents(states[n - 1]), tail, steps[n - 1].line);
  }

  lemma WholeStays(states: seq<State>, steps: seq<Step>, n: nat)
    requires 0 < n <= |steps| && |states| == |steps| + 1 && Alone(steps)
    requires Contents(states[n]) == Contents(states[n - 1])
    ensures Whole(states, steps, n) == Whole(states, steps, n - 1)
  {
    NothingAdded(Contents(states[n]), [], steps[n - 1].line);
    WholeAdds(states, steps, n, []);
  }

  /** When nobody else writes, a usable log is what was there and whole records. */
  lemma {:induction false} UsableIsWhole(states: seq<State>, steps: seq<Step>, n: nat)
    requires IsRun(states, steps) && Alone(steps) && n <= |steps| && !Sealed(states[n])
    ensures Contents(states[n]) == Contents(states[0]) + Whole(states, steps, n)
  {
    if n > 0 {
      var s, line := states[n - 1], steps[n - 1].line;
      assert !Sealed(s);
      UsableIsWhole(states, steps, n - 1);
      AppendCases(s, line, steps[n - 1].attempt);
      var tail := if Contents(states[n]) == Contents(s) + line then line else [];
      NothingAdded(Contents(s), [], line);
      WholeAdds(states, steps, n, tail);
      JoinedUp(Contents(states[0]), Whole(states, steps, n - 1), tail);
    }
  }

  lemma JoinedUp(a: Bytes, b: Bytes, c: Bytes)
    ensures (a + b) + c == a + (b + c) && a + [] == a
  {
  }

  /** The whole records do not change while the file does not. */
  lemma {:induction false} WholeSettles(states: seq<State>, steps: seq<Step>, i: nat, n: nat)
    requires i <= n <= |steps| && |states| == |steps| + 1 && Alone(steps)
    requires forall j :: i <= j <= n ==> Contents(states[j]) == Contents(states[i])
    ensures Whole(states, steps, n) == Whole(states, steps, i)
  {
    if n > i {
      WholeSettles(states, steps, i, n - 1);
      WholeStays(states, steps, n);
    }
  }

  /** The `i`-th record sealed the log: `tail` is what is in the file of it. */
  ghost predicate SealedBy(states: seq<State>, steps: seq<Step>, i: nat, tail: Bytes)
    requires i < |steps| && |states| == |steps| + 1
  {
    !Sealed(states[i]) && TearsAt(states, steps, i) && PartOf(tail, steps[i].line)
    && Contents(states[i + 1]) == Contents(states[i]) + tail
  }

  /** When nobody else writes, the file is what was there, then the whole records,
      then part of at most one more: the one that sealed the log. After it no
      append changes the file or succeeds. */
  lemma WholeRecordsThenOneTorn(states: seq<State>, steps: seq<Step>, n: nat) returns (i: nat, tail: Bytes)
    requires IsRun(states, steps) && Alone(steps) && !Sealed(states[0]) && n <= |steps|
    ensures Contents(states[n]) == Contents(states[0]) + Whole(states, steps, n) + tail
    ensures !Sealed(states[n]) ==> tail == []
    ensures Sealed(states[n]) ==> i < n && SealedBy(states, steps, i, tail)
    ensures Sealed(states[n]) ==> SilentFrom(states, steps, i + 1)
  {
    if !Sealed(states[n]) {
      UsableIsWhole(states, steps, n);
      return 0, [];
    }
    i := FirstSealed(states, n);
    tail := TornTail(states, steps, i);
    SilentOnceSealed(states, steps, i + 1);
    TornStays(states, steps, i + 1, n, tail);
  }

  lemma TornStays(states: seq<State>, steps: seq<Step>, i: nat, n: nat, tail: Bytes)
    requires i <= n <= |steps| && |states| == |steps| + 1 && Alone(steps) && SilentFrom(states, steps, i)
    requires Contents(states[i]) == Contents(states[0]) + Whole(states, steps, i) + tail
    ensures Contents(states[n]) == Contents(states[0]) + Whole(states, steps, n) + tail
  {
    forall j: nat | i <= j <= n ensures states[j] == states[i] { assert Unchanged(states, steps, i, j); }
    WholeSettles(states, steps, i, n);
  }

  lemma TornTail(states: seq<State>, steps: seq<Step>, i: nat) returns (tail: Bytes)
    requires IsRun(states, steps) && Alone(steps) && i < |steps| && !Sealed(states[i]) && Sealed(states[i + 1])
    ensures SealedBy(states, steps, i, tail)
    ensures Contents(states[i + 1]) == Contents(states[0]) + Whole(states, steps, i + 1) + tail
  {
    var s, step := states[i], steps[i];
    UsableIsWhole(states, steps, i);
    AppendCases(s, step.line, step.attempt);
    tail := Contents(states[i + 1])[|Contents(s)|..];
    WholeAdds(states, steps, i + 1, tail);
    JoinedUp(Whole(states, steps, i), [], []);
  }

  /** No append from `i` on changes anything or succeeds. */
  ghost predicate SilentFrom(states: seq<State>, steps: seq<Step>, i: nat)
    requires i <= |steps| && |states| == |steps| + 1
  {
    forall j: nat {:trigger Unchanged(states, steps, i, j)} :: i <= j <= |steps| ==> Unchanged(states, steps, i, j)
  }

  lemma SilentOnceSealed(states: seq<State>, steps: seq<Step>, i: nat)
    requires IsRun(states, steps) && Alone(steps) && i <= |steps| && Sealed(states[i])
    ensures SilentFrom(states, steps, i)
  {
    forall j: nat | i <= j <= |steps| ensures Unchanged(states, steps, i, j) {
      SealedForever(states, steps, i, j);
    }
  }

  lemma {:induction false} FirstSealed(states: seq<State>, n: nat) returns (i: nat)
    requires n < |states| && !Sealed(states[0]) && Sealed(states[n])
    ensures i < n && !Sealed(states[i]) && Sealed(states[i + 1])
  {
    if !Sealed(states[n - 1]) { i := n - 1; } else { i := FirstSealed(states, n - 1); }
  }

  // ----- with others writing to the path -----

  /** Whatever others do to the path, a byte is only ever written at the start of a
      new file, or behind exactly the file, of exactly the length, that an earlier
      append of this log left there in full. */
  lemma WritesOnlyBehindItself(states: seq<State>, steps: seq<Step>, i: nat) returns (j: nat)
    requires IsRun(states, steps) && states[0].identity.None?
    requires i < |steps| && steps[i].Record? && states[i + 1].file != states[i].file
    ensures states[i].file.None? || j < i
    ensures states[i].file.None? ==> states[i].identity.None?
    ensures states[i].file.Some? ==>
              steps[j].Record? && LeftInFull(states[j], states[j + 1], steps[j].line, states[i].file.value)
              && states[i].file.value.ours
              && forall k :: j < k < i && steps[k].Record? ==> states[k + 1].identity == states[k].identity
    ensures Contents(states[i]) <= Contents(states[i + 1])
  {
    j := 0;
    if states[i].file.Some? { j := LastCompleted(states, steps, i); }
  }

  /** From `s` to `t` all of `line` was handed to a file; `f` has its inode and
      the length it then had. */
  ghost predicate LeftInFull(s: State, t: State, line: Bytes, f: File) {
    t.identity == Some(f.inode) && t.size == |f.data| == |Contents(s)| + |line|
    && t.file.Some? && t.file.value.inode == f.inode
  }

  lemma {:induction false} LastCompleted(states: seq<State>, steps: seq<Step>, i: nat) returns (j: nat)
    requires IsRun(states, steps) && states[0].identity.None? && i <= |steps|
    requires states[i].identity.Some?
    ensures j < i && steps[j].Record? && states[j + 1].identity == states[i].identity && states[j + 1].size == states[i].size
    ensures states[j + 1].size == |Contents(states[j])| + |steps[j].line|
    ensures states[j + 1].file.Some? && Some(states[j + 1].file.value.inode) == states[j + 1].identity
    ensures forall k :: j < k < i && steps[k].Record? ==> states[k + 1].identity == states[k].identity
  {
    var s, t := states[i - 1], states[i];
    if t.identity == s.identity && t.size == s.size {
      j := LastCompleted(states, steps, i - 1);
    } else {
      j := i - 1;
    }
  }
}

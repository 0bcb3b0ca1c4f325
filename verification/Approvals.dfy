/**
 The rows of `tool_approvals` under the triggers, CHECK constraints and unique
 index of apps/backend/migrations/versions/0031_tool_approvals.py.

 A change is one row inserted or updated; deleting is refused always. Changes of
 different transactions follow each other in some order.
 */
module Approvals {
  import opened Options

  type Uuid = nat
  type Time = int

  datatype Status = Pending | Approved | Rejected | Consumed | Revoked | Expired
  datatype Level = Approval | Strong

  /** What an approval is asked for: everything that must not change. */
  datatype Call = Call(
    id: Uuid, task: Uuid, attempt: int, retries: int, project: Uuid, agent: Uuid, requester: Uuid,
    tool: string, level: Level, hash: string, targets: string,
    summary: Option<seq<string>>,   // `None`: JSON that is not an array
    created: Time, expires: Time)

  datatype Row = Row(
    call: Call, status: Status,
    approver: Option<Uuid>, decided: Option<Time>, consumed: Option<Time>,
    stepUp: bool, revoked: Option<Time>, revoker: Option<Uuid>)

  type Rows = map<Uuid, Row>

  // ----- the rules -----

  /** `tool_approvals_check_insert`. */
  predicate InsertPasses(r: Row) {
    r.status.Pending? && r.approver.None? && r.decided.None? && r.consumed.None?
    && r.revoked.None? && r.revoker.None? && !r.stepUp
  }

  predicate SameDecision(was: Row, r: Row) {
    r.approver == was.approver && r.decided == was.decided && r.stepUp == was.stepUp
  }

  /** `tool_approvals_check_update`. */
  predicate UpdatePasses(was: Row, r: Row) {
    r.call == was.call
    && ((was.status.Pending? && r.status in {Approved, Rejected, Revoked, Expired})
        || (was.status.Approved? && r.status in {Consumed, Revoked, Expired}))
    && match r.status
       case Approved => r.consumed.None? && r.revoked.None? && r.revoker.None?
       case Rejected => r.consumed.None? && r.revoked.None? && r.revoker.None? && !r.stepUp
       case Consumed => SameDecision(was, r) && r.revoked.None? && r.revoker.None?
       case Revoked => SameDecision(was, r) && r.consumed.None?
       case _ => SameDecision(was, r) && r.consumed.None? && r.revoked.None? && r.revoker.None?
  }

  predicate HexDigit(c: char) {
    '0' <= c <= '9' || 'a' <= c <= 'f'
  }

  /** The CHECK constraints on what is asked for. */
  predicate CallPasses(c: Call) {
    |c.hash| == 64 && (forall i :: 0 <= i < 64 ==> HexDigit(c.hash[i]))
    && c.expires > c.created && c.agent != c.requester
    && c.attempt >= 1 && c.retries >= 0
    && c.summary.Some? && 1 <= |c.summary.value| <= 16
  }

  /** The CHECK constraints on the state. */
  predicate StatePasses(r: Row) {
    (r.approver.None? || r.approver.value == r.call.requester)
    && (r.status.Pending? ==> r.approver.None? && r.decided.None? && !r.stepUp)
    && (r.status in {Approved, Rejected, Consumed} ==> r.approver.Some? && r.decided.Some?)
    && (r.status.Consumed? <==> r.consumed.Some?)
    && (r.status.Revoked? <==> r.revoked.Some?) && (r.revoker.None? || r.revoked.Some?)
    && (r.call.level.Strong? && r.status in {Approved, Consumed} ==> r.stepUp)
  }

  predicate IsOpen(r: Row) {
    r.status in {Pending, Approved}
  }

  /** `uq_tool_approvals_open_call`. */
  predicate Unique(rows: Rows, r: Row) {
    IsOpen(r) ==> forall id :: id in rows && id != r.call.id && IsOpen(rows[id]) ==> rows[id].call.hash != r.call.hash
  }

  datatype Change = Insert(row: Row) | Update(id: Uuid, row: Row)

  predicate Accepted(rows: Rows, c: Change) {
    CallPasses(c.row.call) && StatePasses(c.row) && Unique(rows, c.row)
    && match c
       case Insert(r) => InsertPasses(r) && r.call.id !in rows
       case Update(id, r) => id in rows && UpdatePasses(rows[id], r)
  }

  function Apply(rows: Rows, c: Change): Rows {
    if Accepted(rows, c) then rows[c.row.call.id := c.row] else rows
  }

  /** The table. The database keeps `Consistent` true of it without trusting whoever changes it. */
  class ToolApprovals {
    var rows: Rows

    constructor ()
      ensures rows == map[] && Consistent(rows)
    {
      rows := map[];
    }

    /** One INSERT or UPDATE of a row: the trigger, then the CHECK constraints, then the
        index. The table stays consistent, no row is lost, what any row was asked for
        stays as it was, and at most one row goes on in its life, to what was written. */
    method Change(c: Change) returns (accepted: bool)
      requires Consistent(rows)
      modifies this
      ensures Consistent(rows)
      ensures forall id :: id in old(rows) ==> id in rows && rows[id].call == old(rows)[id].call
      ensures forall id :: id in rows ==> (id in old(rows) && rows[id] == old(rows)[id])
                                          || (accepted && id == c.row.call.id && rows[id] == c.row)
      ensures accepted ==> Rank(rows, c.row.call.id) > Rank(old(rows), c.row.call.id)
      ensures !accepted ==> rows == old(rows)
      ensures accepted == Accepted(old(rows), c) && rows == Apply(old(rows), c)
    {
      var passes := match c
        case Insert(r) => InsertPasses(r)
        case Update(id, r) => id in rows && UpdatePasses(rows[id], r);
      if !passes || !CallPasses(c.row.call) || !StatePasses(c.row) {
        return false;
      }
      if (c.Insert? && c.row.call.id in rows) || !Unique(rows, c.row) {
        return false;
      }
      OneChange(rows, c, c.row.call.id);
      rows := rows[c.row.call.id := c.row];
      return true;
    }
  }

  // ----- every history -----

  ghost predicate IsHistory(tables: seq<Rows>, changes: seq<Change>) {
    |tables| == |changes| + 1 && tables[0] == map[]
    && forall i :: 0 <= i < |changes| ==> tables[i + 1] == Apply(tables[i], changes[i])
  }

  ghost predicate Consistent(rows: Rows) {
    (forall id :: id in rows ==> rows[id].call.id == id && CallPasses(rows[id].call) && StatePasses(rows[id]))
    && forall a, b :: a in rows && b in rows && a != b && IsOpen(rows[a]) && IsOpen(rows[b])
                      ==> rows[a].call.hash != rows[b].call.hash
  }

  lemma {:induction false} HistoryKeeps(tables: seq<Rows>, changes: seq<Change>, k: nat)
    requires IsHistory(tables, changes) && k <= |changes|
    ensures Consistent(tables[k])
  {
    if k > 0 { HistoryKeeps(tables, changes, k - 1); }
  }

  /** At any time every call has at most one open request, and no request was
      decided by anyone but the user who delegated it, least of all by the agent. */
  lemma OneOpenRequestPerCall(tables: seq<Rows>, changes: seq<Change>, k: nat, a: Uuid, b: Uuid)
    requires IsHistory(tables, changes) && k <= |changes| && a in tables[k] && b in tables[k]
    ensures IsOpen(tables[k][a]) && IsOpen(tables[k][b]) && tables[k][a].call.hash == tables[k][b].call.hash ==> a == b
    ensures tables[k][a].approver.Some? ==> var c := tables[k][a].call; c.requester == tables[k][a].approver.value != c.agent
  {
    HistoryKeeps(tables, changes, k);
  }

  /** How far a row is through its life. */
  ghost function Rank(rows: Rows, id: Uuid): nat {
    if id !in rows then 0
    else match rows[id].status
         case Pending => 1
         case Approved => 2
         case _ => 3
  }

  /** Change `i` was accepted for row `id`. */
  ghost predicate Hits(tables: seq<Rows>, changes: seq<Change>, i: nat, id: Uuid)
    requires i < |changes| < |tables|
  {
    Accepted(tables[i], changes[i]) && changes[i].row.call.id == id
  }

  /** How many of the changes from `i` to `j` were accepted for a row. */
  ghost function HitsBetween(tables: seq<Rows>, changes: seq<Change>, i: nat, j: nat, id: Uuid): nat
    requires i <= j <= |changes| < |tables|
    decreases j
  {
    if i == j then 0
    else HitsBetween(tables, changes, i, j - 1, id) + if Hits(tables, changes, j - 1, id) then 1 else 0
  }

  lemma OneChange(rows: Rows, c: Change, id: Uuid)
    requires Consistent(rows)
    ensures var next := Apply(rows, c);
            if Accepted(rows, c) && c.row.call.id == id then Rank(next, id) > Rank(rows, id)
            else (id in next <==> id in rows) && (id in rows ==> next[id] == rows[id])
    ensures id in rows ==> id in Apply(rows, c) && Apply(rows, c)[id].call == rows[id].call
  {
  }

  /** A row is never lost, what it was asked for never changes, and it is changed at
      most twice after it was inserted, not at all once it is rejected, consumed,
      revoked or expired. */
  lemma {:induction false} RowsAreKept(tables: seq<Rows>, changes: seq<Change>, i: nat, j: nat, id: Uuid)
    requires IsHistory(tables, changes) && i <= j <= |changes| && id in tables[i]
    ensures id in tables[j] && tables[j][id].call == tables[i][id].call
    ensures HitsBetween(tables, changes, i, j, id) <= Rank(tables[j], id) - Rank(tables[i], id) <= 2
    ensures HitsBetween(tables, changes, i, j, id) == 0 ==> tables[j][id] == tables[i][id]
    ensures !IsOpen(tables[i][id]) ==> tables[j][id] == tables[i][id]
    decreases j
  {
    if i < j {
      RowsAreKept(tables, changes, i, j - 1, id);
      HistoryKeeps(tables, changes, j - 1);
      OneChange(tables[j - 1], changes[j - 1], id);
    }
  }

  /** Change `i` made the row's status what it is after it. */
  ghost predicate Becomes(tables: seq<Rows>, changes: seq<Change>, i: nat, id: Uuid, status: Status)
    requires i < |changes| < |tables|
  {
    id in tables[i + 1] && tables[i + 1][id].status == status
    && (id in tables[i] ==> tables[i][id].status != status)
  }

  lemma {:induction false} HowItBecame(tables: seq<Rows>, changes: seq<Change>, k: nat, id: Uuid) returns (i: nat)
    requires IsHistory(tables, changes) && k <= |changes| && id in tables[k]
    ensures i < k && Becomes(tables, changes, i, id, tables[k][id].status) && tables[i + 1][id] == tables[k][id]
  {
    HistoryKeeps(tables, changes, k - 1);
    OneChange(tables[k - 1], changes[k - 1], id);
    if id in tables[k - 1] && tables[k - 1][id].status == tables[k][id].status {
      i := HowItBecame(tables, changes, k - 1, id);
    } else {
      i := k - 1;
    }
  }

  /** A consumed row was inserted pending, then approved by its requester, with a
      step-up if it is a strong one, then consumed; all for the same call in the same
      run of the task, and with nothing in between. */
  lemma ConsumedWasApproved(tables: seq<Rows>, changes: seq<Change>, k: nat, id: Uuid)
      returns (inserted: nat, approved: nat, consumed: nat)
    requires IsHistory(tables, changes) && k <= |changes| && id in tables[k] && tables[k][id].status.Consumed?
    ensures inserted < approved < consumed < k
    ensures id !in tables[inserted] && changes[inserted].Insert?
    ensures id in tables[inserted + 1] && tables[inserted + 1][id] == changes[inserted].row
    ensures id in tables[approved] && tables[approved][id] == tables[inserted + 1][id]
    ensures id in tables[approved + 1] && tables[approved + 1][id].status.Approved?
    ensures var r := tables[approved + 1][id];
            r.approver == Some(r.call.requester) && r.decided.Some? && (r.call.level.Strong? ==> r.stepUp)
    ensures id in tables[consumed] && tables[consumed][id] == tables[approved + 1][id]
    ensures id in tables[consumed + 1] && tables[consumed + 1][id] == tables[k][id]
    ensures tables[k][id].call == changes[inserted].row.call
    ensures SameDecision(tables[approved + 1][id], tables[k][id])
    ensures forall i: nat :: i < |changes| && Becomes(tables, changes, i, id, Consumed) ==> i == consumed
  {
    consumed := HowItBecame(tables, changes, k, id);
    OneStepBack(tables, changes, consumed, id);
    approved := HowItBecame(tables, changes, consumed, id);
    OneStepBack(tables, changes, approved, id);
    inserted := HowItBecame(tables, changes, approved, id);
    OneStepBack(tables, changes, inserted, id);
    ConsumedOnlyThen(tables, changes, consumed, id);
  }

  /** What a row was before it became consumed, approved or pending. */
  lemma OneStepBack(tables: seq<Rows>, changes: seq<Change>, i: nat, id: Uuid)
    requires IsHistory(tables, changes) && i < |changes| && id in tables[i + 1]
    requires Becomes(tables, changes, i, id, tables[i + 1][id].status)
    ensures var r := tables[i + 1][id];
            if r.status.Pending? then id !in tables[i] && changes[i] == Insert(r)
            else id in tables[i] && tables[i][id].call == r.call
    ensures var r := tables[i + 1][id];
            && (r.status.Approved? ==> tables[i][id].status.Pending? && r.approver == Some(r.call.requester)
                                       && r.decided.Some? && (r.call.level.Strong? ==> r.stepUp))
            && (r.status.Consumed? ==> tables[i][id].status.Approved? && SameDecision(tables[i][id], r))
  {
    HistoryKeeps(tables, changes, i);
    HistoryKeeps(tables, changes, i + 1);
    OneChange(tables[i], changes[i], id);
  }

  lemma ConsumedOnlyThen(tables: seq<Rows>, changes: seq<Change>, consumed: nat, id: Uuid)
    requires IsHistory(tables, changes) && consumed < |changes| && Becomes(tables, changes, consumed, id, Consumed)
    ensures forall i: nat :: i < |changes| && Becomes(tables, changes, i, id, Consumed) ==> i == consumed
  {
    forall i: nat | i < |changes| && Becomes(tables, changes, i, id, Consumed) ensures i == consumed {
      ConsumedOnce(tables, changes, i, consumed, id);
    }
  }

  lemma ConsumedOnce(tables: seq<Rows>, changes: seq<Change>, i: nat, j: nat, id: Uuid)
    requires IsHistory(tables, changes) && i < |changes| && j < |changes|
    requires Becomes(tables, changes, i, id, Consumed) && Becomes(tables, changes, j, id, Consumed)
    ensures i == j
  {
    if i < j { RowsAreKept(tables, changes, i + 1, j, id); }
    if j < i { RowsAreKept(tables, changes, j + 1, i, id); }
  }

  // ----- exactly which changes pass -----

  /** On a row of a history, each change of state passes exactly in these cases. */
  lemma LegalChanges(rows: Rows, id: Uuid, user: Uuid, at: Time, stepUp: bool, revoker: Option<Uuid>)
    requires Consistent(rows) && id in rows
    ensures var r := rows[id];
            (Accepted(rows, Update(id, r.(status := Approved, approver := Some(user), decided := Some(at), stepUp := stepUp)))
             <==> r.status.Pending? && user == r.call.requester && (r.call.level.Strong? ==> stepUp))
            && (Accepted(rows, Update(id, r.(status := Rejected, approver := Some(user), decided := Some(at))))
                <==> r.status.Pending? && user == r.call.requester)
            && (Accepted(rows, Update(id, r.(status := Consumed, consumed := Some(at)))) <==> r.status.Approved?)
            && (Accepted(rows, Update(id, r.(status := Revoked, revoked := Some(at), revoker := revoker))) <==> IsOpen(r))
            && (Accepted(rows, Update(id, r.(status := Expired))) <==> IsOpen(r))
  {
  }

  /** Each change of state sets its own columns and leaves all others as they were. */
  lemma OwnColumnsOnly(rows: Rows, id: Uuid, r: Row)
    requires Consistent(rows) && Accepted(rows, Update(id, r))
    ensures id in rows
    ensures var was := rows[id];
            match r.status
            case Approved => r == was.(status := Approved, approver := Some(was.call.requester), decided := r.decided,
                                       stepUp := r.stepUp)
            case Rejected => r == was.(status := Rejected, approver := Some(was.call.requester), decided := r.decided)
            case Consumed => r == was.(status := Consumed, consumed := r.consumed)
            case Revoked => r == was.(status := Revoked, revoked := r.revoked, revoker := r.revoker)
            case Expired => r == was.(status := Expired)
            case Pending => false
  {
  }

  /** The columns of a row say what happened to it. */
  lemma ColumnsSayStatus(tables: seq<Rows>, changes: seq<Change>, k: nat, id: Uuid)
    requires IsHistory(tables, changes) && k <= |changes| && id in tables[k]
    ensures var r := tables[k][id];
            && r.call.id == id && r.call.agent != r.call.requester
            && (r.status.Pending? ==> r.approver.None? && r.decided.None? && !r.stepUp)
            && (r.status in {Approved, Rejected, Consumed} ==> r.approver == Some(r.call.requester) && r.decided.Some?)
            && (r.status in {Approved, Consumed} && r.call.level.Strong? ==> r.stepUp)
            && (r.status.Rejected? ==> !r.stepUp)
            && (r.consumed.Some? <==> r.status.Consumed?)
            && (r.revoked.Some? <==> r.status.Revoked?) && (r.revoker.Some? ==> r.revoked.Some?)
  {
    HistoryKeeps(tables, changes, k);
    var i := HowItBecame(tables, changes, k, id);
    HistoryKeeps(tables, changes, i);
    OneChange(tables[i], changes[i], id);
  }

  lemma HexIs(c: char)
    ensures HexDigit(c) <==> c in "0123456789abcdef"
  {
    var hex := "0123456789abcdef";
    if c in hex { var i :| 0 <= i < |hex| && hex[i] == c; }
    if '0' <= c <= '9' { assert hex[c as int - '0' as int] == c; }
    if 'a' <= c <= 'f' { assert hex[10 + (c as int - 'a' as int)] == c; }
  }

  /** A request passes exactly if it is well formed (a hash of 64 hexadecimal digits, an
      expiry after its creation, an agent that is not the user, a run of the task, and a
      summary of 1 to 16 entries), its id is new, and its call has no open request; so the
      same call can be asked for again once the earlier request is closed. */
  lemma RequestPasses(rows: Rows, c: Call)
    requires Consistent(rows)
    ensures Accepted(rows, Insert(Row(c, Pending, None, None, None, false, None, None)))
            <==> && |c.hash| == 64 && (forall i :: 0 <= i < |c.hash| ==> c.hash[i] in "0123456789abcdef")
                 && c.expires > c.created && c.agent != c.requester && c.attempt >= 1 && c.retries >= 0
                 && c.summary.Some? && 1 <= |c.summary.value| <= 16
                 && c.id !in rows
                 && forall id :: id in rows && IsOpen(rows[id]) ==> rows[id].call.hash != c.hash
  {
    forall i | 0 <= i < |c.hash| ensures HexDigit(c.hash[i]) <==> c.hash[i] in "0123456789abcdef" { HexIs(c.hash[i]); }
  }
}

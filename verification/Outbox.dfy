/**
 * What the outbox says about the table: it replays to it, each row's events form
 * complete lives, and neither ever breaks the rules that tie status, activity and
 * usernames together. All of it holds for every run of statements, refused and
 * failing ones included.
 */
module Outbox {
  import opened Domain
  import opened UserTable

  datatype Command =
    | Create(p: CreateUserParams, now: int, f: Fault)
    | Activate(id: string, now: int, f: Fault)
    | Deactivate(id: string, now: int, f: Fault)
    | Delete(id: string, f: Fault)

  function Exec(db: Db, c: Command): Db {
    match c
    case Create(p, now, f) => CreateRow(db, p, now, f).0
    case Activate(id, now, f) => ActivateRow(db, id, now, f).0
    case Deactivate(id, now, f) => DeactivateRow(db, id, now, f).0
    case Delete(id, f) => DeleteRow(db, id, f).0
  }

  function Run(db: Db, cs: seq<Command>): Db {
    if cs == [] then db else Exec(Run(db, cs[..|cs| - 1]), cs[|cs| - 1])
  }

  // --------------------------------------------------- the shape of a change

  /** The row changes that the service's statements can make. */
  ghost predicate LegalWrite(db: Db, op: Op, row: Row) {
    && IsUuid(row.id)
    && match op
       case Created =>
         && row.id !in db.rows && !UsernameTaken(db.rows, row.username)
         && row.status == PendingRegistration && !row.isActive
       case Updated =>
         && row.id in db.rows && row.username == db.rows[row.id].username
         && row.status != PendingRegistration && row.isActive == row.status.Active?
       case Deactivated => row.id in db.rows && row == db.rows[row.id]
  }

  ghost predicate Changes(before: Db, after: Db) {
    before == after || exists op, row :: LegalWrite(before, op, row) && after == Write(before, op, row)
  }

  lemma ExecChanges(db: Db, c: Command)
    requires Keyed(db.rows)
    ensures Changes(db, Exec(db, c))
  {
    var after := Exec(db, c);
    if after != db {
      match c
      case Create(p, now, f) => assert LegalWrite(db, Created, NewRow(p, now));
      case Activate(id, now, f) =>
        var row := db.rows[id].(isActive := true, status := Active, updatedAt := now);
        assert LegalWrite(db, Updated, row) && after == Write(db, Updated, row);
      case Deactivate(id, now, f) =>
        var row := db.rows[id].(isActive := false, status := RegistrationFailed, updatedAt := now);
        assert LegalWrite(db, Updated, row) && after == Write(db, Updated, row);
      case Delete(id, f) => assert LegalWrite(db, Deactivated, db.rows[id]);
    }
  }

  // ------------------------------------------------------------------ replay

  function ApplyEvent(rows: map<string, Row>, e: Event): map<string, Row> {
    if e.op.Deactivated? then rows - {e.aggregateId} else rows[e.aggregateId := e.payload]
  }

  /** A table rebuilt from nothing but the event log. */
  function Replay(es: seq<Event>): map<string, Row> {
    if es == [] then map[] else ApplyEvent(Replay(es[..|es| - 1]), es[|es| - 1])
  }

  ghost predicate Recorded(db: Db) {
    && Keyed(db.rows) && Replay(db.outbox) == db.rows
    && forall i :: 0 <= i < |db.outbox| ==> db.outbox[i].payload.id == db.outbox[i].aggregateId
  }

  lemma ReplayGrows(es: seq<Event>, e: Event)
    ensures Replay(es + [e]) == ApplyEvent(Replay(es), e)
  {
    assert (es + [e])[..|es|] == es;
  }

  lemma ChangeIsRecorded(before: Db, after: Db)
    requires Recorded(before) && Changes(before, after)
    ensures Recorded(after)
    ensures before.outbox <= after.outbox
  {
    if after != before {
      var op, row :| LegalWrite(before, op, row) && after == Write(before, op, row);
      ReplayGrows(before.outbox, Event(row.id, op, row));
    }
  }

  /** Every row of a recorded table is the payload of one of its own events. */
  lemma {:induction false} ReplayedRowHasEvent(es: seq<Event>, id: string) returns (i: nat)
    requires id in Replay(es)
    ensures i < |es| && es[i].aggregateId == id && es[i].payload == Replay(es)[id]
  {
    if es[|es| - 1].aggregateId == id {
      i := |es| - 1;
    } else {
      i := ReplayedRowHasEvent(es[..|es| - 1], id);
    }
  }

  // ------------------------------------------------------------------- lives

  function OpsOf(es: seq<Event>, id: string): seq<Op> {
    if es == [] then []
    else
      var last := es[|es| - 1];
      OpsOf(es[..|es| - 1], id) + if last.aggregateId == id then [last.op] else []
  }

  /** created updated* */
  predicate OpenLife(ops: seq<Op>) {
    ops != [] && ops[0] == Created && forall i :: 1 <= i < |ops| ==> ops[i] == Updated
  }

  /** (created updated* deactivated)* */
  ghost predicate ClosedLives(ops: seq<Op>) {
    ops == [] || (ops[|ops| - 1] == Deactivated && OpenAfterClosed(ops[..|ops| - 1]))
  }

  /** (created updated* deactivated)* created updated* */
  ghost predicate OpenAfterClosed(ops: seq<Op>) {
    exists j :: 0 <= j < |ops| && ClosedLives(ops[..j]) && OpenLife(ops[j..])
  }

  function CountOp(es: seq<Event>, id: string, op: Op): nat {
    if es == [] then 0
    else
      var last := es[|es| - 1];
      CountOp(es[..|es| - 1], id, op) + if last.aggregateId == id && last.op == op then 1 else 0
  }

  ghost predicate LivesOf(db: Db, id: string) {
    && (if id in db.rows then OpenAfterClosed(OpsOf(db.outbox, id)) else ClosedLives(OpsOf(db.outbox, id)))
    && CountOp(db.outbox, id, Created)
       == CountOp(db.outbox, id, Deactivated) + if id in db.rows then 1 else 0
  }

  lemma LifeGoesOn(ops: seq<Op>)
    requires OpenAfterClosed(ops)
    ensures OpenAfterClosed(ops + [Updated])
  {
    var j :| 0 <= j < |ops| && ClosedLives(ops[..j]) && OpenLife(ops[j..]);
    var more := ops + [Updated];
    assert more[..j] == ops[..j];
    var life := more[j..];
    assert forall i :: 0 <= i < |ops| - j ==> life[i] == ops[j..][i];
    assert OpenLife(life);
  }

  lemma LifeEnds(ops: seq<Op>)
    requires OpenAfterClosed(ops)
    ensures ClosedLives(ops + [Deactivated])
  {
    var closed := ops + [Deactivated];
    assert closed[..|closed| - 1] == ops;
  }

  lemma LifeBegins(ops: seq<Op>)
    requires ClosedLives(ops)
    ensures OpenAfterClosed(ops + [Created])
  {
    var more := ops + [Created];
    assert more[..|ops|] == ops && more[|ops|..] == [Created];
  }

  lemma EventIsCounted(es: seq<Event>, e: Event, id: string)
    ensures OpsOf(es + [e], id) == if e.aggregateId == id then OpsOf(es, id) + [e.op] else OpsOf(es, id)
    ensures forall op :: CountOp(es + [e], id, op)
                         == CountOp(es, id, op) + if e.aggregateId == id && e.op == op then 1 else 0
  {
    assert (es + [e])[..|es|] == es;
  }

  lemma WriteKeepsLives(db: Db, op: Op, row: Row, id: string)
    requires LivesOf(db, id) && LegalWrite(db, op, row)
    ensures LivesOf(Write(db, op, row), id)
  {
    EventIsCounted(db.outbox, Event(row.id, op, row), id);
    if row.id == id {
      var ops := OpsOf(db.outbox, id);
      match op
      case Created => LifeBegins(ops);
      case Updated => LifeGoesOn(ops);
      case Deactivated => LifeEnds(ops);
    }
  }

  lemma ChangeKeepsLives(before: Db, after: Db, id: string)
    requires LivesOf(before, id) && Changes(before, after)
    ensures LivesOf(after, id)
  {
    if after != before {
      var op, row :| LegalWrite(before, op, row) && after == Write(before, op, row);
      WriteKeepsLives(before, op, row, id);
    }
  }

  // --------------------------------------------------------------- row rules

  /** Only creations record a pending row, among those that leave one, and activity follows the status. */
  predicate EventRules(e: Event) {
    && e.payload.isActive == e.payload.status.Active?
    && (e.op.Created? ==> e.payload.status == PendingRegistration)
    && (e.op.Updated? ==> e.payload.status != PendingRegistration)
  }

  /** `is_active` tells exactly that the status is active, and usernames are not shared. */
  ghost predicate RowRules(db: Db) {
    && UniqueUsernames(db.rows)
    && (forall id :: id in db.rows ==> db.rows[id].isActive == db.rows[id].status.Active?)
    && (forall i :: 0 <= i < |db.outbox| ==> EventRules(db.outbox[i]))
  }

  lemma WriteKeepsNamesUnique(db: Db, op: Op, row: Row)
    requires Keyed(db.rows) && UniqueUsernames(db.rows) && LegalWrite(db, op, row)
    ensures UniqueUsernames(Write(db, op, row).rows)
  {
  }

  lemma ChangeKeepsRules(before: Db, after: Db)
    requires Keyed(before.rows) && RowRules(before) && Changes(before, after)
    ensures RowRules(after)
  {
    if after != before {
      var op, row :| LegalWrite(before, op, row) && after == Write(before, op, row);
      WriteKeepsNamesUnique(before, op, row);
      forall i | 0 <= i < |after.outbox| ensures EventRules(after.outbox[i]) {
        if i < |before.outbox| { assert after.outbox[i] == before.outbox[i]; }
      }
    }
  }

  // ------------------------------------------------------------ main results

  ghost predicate Lawful(db: Db) {
    Recorded(db) && RowRules(db) && forall id :: LivesOf(db, id)
  }

  lemma ChangeIsLawful(before: Db, after: Db)
    requires Lawful(before) && Changes(before, after)
    ensures Lawful(after) && before.outbox <= after.outbox
  {
    ChangeIsRecorded(before, after);
    ChangeKeepsRules(before, after);
    forall id ensures LivesOf(after, id) { ChangeKeepsLives(before, after, id); }
  }

  lemma {:induction false} RunIsLawful(db: Db, cs: seq<Command>)
    requires Lawful(db)
    ensures Lawful(Run(db, cs)) && db.outbox <= Run(db, cs).outbox
  {
    if cs != [] {
      var before := Run(db, cs[..|cs| - 1]);
      RunIsLawful(db, cs[..|cs| - 1]);
      StepIsLawful(before, Run(db, cs), cs[|cs| - 1]);
    }
  }

  lemma StepIsLawful(before: Db, after: Db, c: Command)
    requires Lawful(before) && after == Exec(before, c)
    ensures Lawful(after) && before.outbox <= after.outbox
  {
    ExecChanges(before, c);
    ChangeIsLawful(before, after);
  }

  /** Replaying the outbox of any run from an empty table rebuilds the table exactly. */
  lemma {:induction false} OutboxReplaysToTable(cs: seq<Command>)
    ensures Replay(Run(EMPTY_DB, cs).outbox) == Run(EMPTY_DB, cs).rows
  {
    RunIsLawful(EMPTY_DB, cs);
  }

  /** The events of one user are whole lives, the last one open exactly while the row exists. */
  lemma EventsFormLives(cs: seq<Command>, id: string)
    ensures var db := Run(EMPTY_DB, cs);
            if id in db.rows then OpenAfterClosed(OpsOf(db.outbox, id)) else ClosedLives(OpsOf(db.outbox, id))
    ensures var db := Run(EMPTY_DB, cs);
            CountOp(db.outbox, id, Created) - CountOp(db.outbox, id, Deactivated)
            == if id in db.rows then 1 else 0
  {
    RunIsLawful(EMPTY_DB, cs);
    assert LivesOf(Run(EMPTY_DB, cs), id);
  }

  /** In every reachable table and payload: activity is status, and usernames are unique. */
  lemma StatusAndNamesAreConsistent(cs: seq<Command>)
    ensures RowRules(Run(EMPTY_DB, cs))
  {
    RunIsLawful(EMPTY_DB, cs);
  }

  ghost predicate Recreated(older: seq<Event>, newer: seq<Event>, id: string) {
    exists i, j :: |older| <= i < j < |newer|
                   && newer[i].aggregateId == id && newer[i].op == Deactivated
                   && newer[j].aggregateId == id && newer[j].op == Created
  }

  ghost predicate Deleted(older: seq<Event>, newer: seq<Event>, id: string) {
    exists i :: |older| <= i < |newer| && newer[i].aggregateId == id && newer[i].op == Deactivated
  }

  /** The row has left pending registration, unless it was deleted since, and re-created if it is pending. */
  ghost predicate LeftPending(older: seq<Event>, db: Db, id: string) {
    && |older| <= |db.outbox|
    && (id in db.rows && db.rows[id].status == PendingRegistration ==> Recreated(older, db.outbox, id))
    && (id !in db.rows ==> Deleted(older, db.outbox, id))
  }

  lemma RecordStays(older: seq<Event>, newer: seq<Event>, e: Event, id: string)
    ensures Recreated(older, newer, id) ==> Recreated(older, newer + [e], id)
    ensures Deleted(older, newer, id) ==> Deleted(older, newer + [e], id)
    ensures |older| <= |newer| && e.aggregateId == id && e.op == Deactivated ==> Deleted(older, newer + [e], id)
    ensures Deleted(older, newer, id) && e.aggregateId == id && e.op == Created ==> Recreated(older, newer + [e], id)
  {
    var more, n := newer + [e], |newer|;
    assert forall i :: 0 <= i < n ==> more[i] == newer[i];
    assert more[n] == e;
    if i :| |older| <= i < n && newer[i].aggregateId == id && newer[i].op == Deactivated {
      assert more[i].aggregateId == id && more[i].op == Deactivated;
    }
    if Recreated(older, newer, id) {
      var i, j :| |older| <= i < j < n && newer[i].aggregateId == id && newer[i].op == Deactivated
                  && newer[j].aggregateId == id && newer[j].op == Created;
      assert more[i] == newer[i] && more[j] == newer[j];
    }
  }

  lemma LeftPendingByWrite(older: seq<Event>, db: Db, op: Op, row: Row, id: string)
    requires LeftPending(older, db, id) && LegalWrite(db, op, row)
    ensures LeftPending(older, Write(db, op, row), id)
  {
    RecordStays(older, db.outbox, Event(row.id, op, row), id);
  }

  /** A row that has left pending registration is pending again only if it was deleted and re-created. */
  lemma {:induction false} PendingNeedsRecreation(db: Db, cs: seq<Command>, id: string)
    requires Lawful(db) && id in db.rows && db.rows[id].status != PendingRegistration
    ensures var end := Run(db, cs);
            && (id in end.rows && end.rows[id].status == PendingRegistration ==>
                  Recreated(db.outbox, end.outbox, id))
            && (id !in end.rows ==> Deleted(db.outbox, end.outbox, id))
            && |db.outbox| <= |end.outbox|
  {
    if cs != [] {
      var before, after, c := Run(db, cs[..|cs| - 1]), Run(db, cs), cs[|cs| - 1];
      PendingNeedsRecreation(db, cs[..|cs| - 1], id);
      RunIsLawful(db, cs[..|cs| - 1]);
      ExecChanges(before, c);
      if after != before {
        var op, row :| LegalWrite(before, op, row) && after == Write(before, op, row);
        LeftPendingByWrite(db.outbox, before, op, row, id);
      }
    }
  }
}

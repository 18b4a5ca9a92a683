/**
 The execution ledger (runner/src/store.ts:63-97): one row per operation id, written when a job is
 accepted and changed at most once. A storage fault makes one statement do nothing.
 */
module Ledger {
  import opened Wrappers
  import opened JsonNumber
  import opened JsonString
  import opened Json
  import opened Protocol

  datatype Row = Row(
    executionId: Text,
    operationId: Text,
    experimentRef: Text,
    fingerprint: Text,
    behavior: Text,
    payloadJson: Text,
    state: RunState,
    outcome: Text,
    resultJson: Text,
    startedAt: Text,
    completedAt: Text)

  /** The table, by its unique operation id. */
  type Rows = map<Text, Row>

  /** Which of a store call's statements fails: its write, or the read-back that follows. */
  datatype StoreFault = NoFault | OnWrite | OnReadback

  function View(row: Row): Execution {
    Execution(row.executionId, row.operationId, row.experimentRef, StateText(row.state), row.outcome, row.resultJson,
              row.startedAt, row.completedAt)
  }

  /** Neither the primary key nor the unique operation id is in use. */
  predicate Insertable(rows: Rows, operationId: Text, executionId: Text) {
    operationId !in rows && forall op :: op in rows ==> rows[op].executionId != executionId
  }

  function Inserted(rows: Rows, r: Request, fingerprint: Text, executionId: Text, now: Text): Rows {
    rows[r.operationId := Row(executionId, r.operationId, r.experimentRef, fingerprint, r.behavior, r.payloadJson,
                              RUNNING, [], [], now, [])]
  }

  /** UPDATE ... WHERE operation_id = ? AND state = 'RUNNING' */
  function Completed(rows: Rows, operationId: Text, outcome: Text, resultJson: Text, now: Text): Rows {
    if operationId in rows && rows[operationId].state == RUNNING
    then rows[operationId := rows[operationId].(state := COMPLETED, outcome := outcome, resultJson := resultJson,
        completedAt := now)]
    else rows
  }

  function RestartNote(): Text {
    var ms := [Member(Ascii("error"),
      Str(Ascii("Runner restarted before completion; inspect and start a new operation.")))];
    Stringify(Obj(ms))
  }

  /** UPDATE ... SET state = 'INTERRUPTED' WHERE state = 'RUNNING' */
  function Recovered(rows: Rows, now: Text): Rows {
    map op | op in rows :: if rows[op].state == RUNNING then Interrupt(rows[op], now) else rows[op]
  }

  function Interrupt(row: Row, now: Text): Row {
    row.(state := INTERRUPTED, resultJson := RestartNote(), completedAt := now)
  }

  // ----- rows are write-once

  predicate SameJob(a: Row, b: Row) {
    && a.executionId == b.executionId && a.operationId == b.operationId && a.experimentRef == b.experimentRef
    && a.fingerprint == b.fingerprint && a.behavior == b.behavior && a.payloadJson == b.payloadJson
    && a.startedAt == b.startedAt
  }

  /** The row is as it was, or it was RUNNING and has been completed or interrupted since. */
  predicate Advances(a: Row, b: Row) {
    a == b || (SameJob(a, b) && a.state == RUNNING && b.state != RUNNING)
  }

  ghost predicate Extends(before: Rows, after: Rows) {
    forall op :: op in before ==> op in after && Advances(before[op], after[op])
  }

  lemma ExtendsTransitive(a: Rows, b: Rows, c: Rows)
    requires Extends(a, b) && Extends(b, c)
    ensures Extends(a, c)
  {
  }

  ghost predicate RowsOk(rows: Rows) {
    && (forall op :: op in rows ==> rows[op].operationId == op)
    && (forall op, q :: op in rows && q in rows && rows[op].executionId == rows[q].executionId ==> op == q)
  }

  lemma InsertedOk(rows: Rows, r: Request, fingerprint: Text, executionId: Text, now: Text)
    requires RowsOk(rows) && Insertable(rows, r.operationId, executionId)
    ensures RowsOk(Inserted(rows, r, fingerprint, executionId, now))
        && Extends(rows, Inserted(rows, r, fingerprint, executionId, now))
  {
  }

  lemma CompletedOk(rows: Rows, op: Text, outcome: Text, resultJson: Text, now: Text)
    requires RowsOk(rows)
    ensures RowsOk(Completed(rows, op, outcome, resultJson, now))
        && Extends(rows, Completed(rows, op, outcome, resultJson, now))
  {
  }

  lemma RecoveredOk(rows: Rows, now: Text)
    requires RowsOk(rows)
    ensures RowsOk(Recovered(rows, now)) && Extends(rows, Recovered(rows, now))
  {
  }

  /** The outcome and result a job with this row stores, for some moment of processing. */
  ghost predicate Earned(row: Row, b: Behavior, payload: Json)
    requires Ok(payload)
  {
    row.outcome == OutcomeText(b)
    && exists t :: IsInstant(t) && row.resultJson == Stringify(ResultOf(b, row.experimentRef, payload, t))
  }

  /** The row describes one accepted request, and a completed row holds what that request earns. */
  ghost predicate Faithful(row: Row) {
    && IsUuid(row.executionId) && IsInstant(row.startedAt)
    && ParseBehavior(row.behavior).Some?
    && Parse(row.payloadJson).Some? && Parse(row.payloadJson).value.Obj?
    && row.fingerprint == Fingerprint(row.experimentRef, row.behavior, Parse(row.payloadJson).value)
    && (row.state == COMPLETED ==> Earned(row, ParseBehavior(row.behavior).value, Parse(row.payloadJson).value))
  }

  ghost predicate RowsFaithful(rows: Rows) {
    forall op :: op in rows ==> Faithful(rows[op])
  }

  lemma RecoveredFaithful(rows: Rows, now: Text)
    requires RowsFaithful(rows)
    ensures RowsFaithful(Recovered(rows, now))
  {
    forall op | op in rows ensures Faithful(Recovered(rows, now)[op]) {
      InterruptFaithful(rows[op], now);
    }
  }

  /** Recovery leaves a note that reads as an error, and the time; every other row stays as it was. */
  lemma RecoveryIsExact(rows: Rows, now: Text, op: Text)
    requires op in rows
    ensures Recovered(rows, now).Keys == rows.Keys
    ensures var (before, after) := (rows[op], Recovered(rows, now)[op]);
            if before.state == RUNNING
            then SameJob(before, after) && after.state == INTERRUPTED && after.outcome == before.outcome
                && after.completedAt == now && ReportsError(ResultValue(View(after)))
            else after == before
  {
    if rows[op].state == RUNNING { NoteIsReported(View(Interrupt(rows[op], now))); }
  }

  lemma NoteIsReported(e: Execution)
    requires e.resultJson == RestartNote()
    ensures ReportsError(ResultValue(e))
  {
    var ms := [Member(Ascii("error"),
      Str(Ascii("Runner restarted before completion; inspect and start a new operation.")))];
    assert Ok(Obj(ms));
    ResultReadsBack(e, Obj(ms));
  }

  lemma InterruptFaithful(row: Row, now: Text)
    requires Faithful(row)
    ensures Faithful(Interrupt(row, now))
  {
  }

  lemma OneRowFaithful(rows: Rows, op: Text, row: Row)
    requires RowsFaithful(rows) && Faithful(row)
    ensures RowsFaithful(rows[op := row])
  {
  }

  class ExecutionStore {
    var rows: Rows

    constructor (rows: Rows)
      ensures this.rows == rows
    {
      this.rows := rows;
    }

    /** Startup recovery: no RUNNING row is left, and no other row has changed. */
    method RecoverRunning(now: Text)
      modifies this
      ensures rows == Recovered(old(rows), now)
      ensures forall op :: op in rows ==> rows[op].state != RUNNING
      ensures forall op :: op in old(rows) && old(rows)[op].state != RUNNING ==> op in rows && rows[op] == old(rows)[op]
      ensures Extends(old(rows), rows)
    {
      rows := map op | op in rows :: if rows[op].state == RUNNING then Interrupt(rows[op], now) else rows[op];
    }

    method Find(operationId: Text) returns (row: Option<Row>)
      ensures row == if operationId in rows then Some(rows[operationId]) else None
    {
      row := if operationId in rows then Some(rows[operationId]) else None;
    }

    /** A row that was there is never overwritten; without a fault the new row is there and RUNNING. */
    method Start(r: Request, fingerprint: Text, executionId: Text, now: Text,
        fault: StoreFault) returns (e: Option<Execution>)
      requires RowsOk(rows)
      modifies this
      ensures RowsOk(rows) && Extends(old(rows), rows)
      ensures fault == OnWrite || !Insertable(old(rows), r.operationId, executionId) ==> rows == old(rows) && e.None?
      ensures fault != OnWrite && Insertable(old(rows), r.operationId, executionId) ==>
                rows == Inserted(old(rows), r, fingerprint, executionId, now)
                && e == (if fault == OnReadback then None else Some(View(rows[r.operationId])))
    {
      if fault == OnWrite || r.operationId in rows || exists op :: op in rows && rows[op].executionId == executionId {
        return None;
      }
      rows := rows[r.operationId := Row(executionId, r.operationId, r.experimentRef, fingerprint, r.behavior,
          r.payloadJson,
                                        RUNNING, [], [], now, [])];
      e := if fault == OnReadback then None else Some(View(rows[r.operationId]));
    }

    /** Only a RUNNING row changes; the row as it then stands is returned. */
    method Complete(operationId: Text, outcome: Text, resultJson: Text, now: Text,
        fault: StoreFault) returns (e: Option<Execution>)
      requires RowsOk(rows)
      modifies this
      ensures RowsOk(rows) && Extends(old(rows), rows)
      ensures rows == if fault == OnWrite then old(rows) else Completed(old(rows), operationId, outcome, resultJson,
          now)
      ensures e == if fault != NoFault || operationId !in rows then None else Some(View(rows[operationId]))
    {
      if fault == OnWrite { return None; }
      if operationId in rows && rows[operationId].state == RUNNING {
        var row := rows[operationId];
        rows := rows[operationId := row.(state := COMPLETED, outcome := outcome, resultJson := resultJson,
            completedAt := now)];
      }
      e := if fault == OnReadback || operationId !in rows then None else Some(View(rows[operationId]));
    }
  }
}

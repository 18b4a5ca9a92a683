/**
 The runner application of one process (runner/src/app.ts:20-105): deduplication by operation id
 through the durable row and the in-memory promises, and graceful shutdown. Between two awaits the
 program runs without interruption, so a handler up to its first await is one step.
 */
module Runner {
  import opened Wrappers
  import opened JsonNumber
  import opened Json
  import opened Protocol
  import opened Ledger

  /** The promise of one job: the request it runs, then its settled value. */
  datatype Work = Unsettled(request: Request, behavior: Behavior,
    payload: Json) | Resolved(execution: Execution) | Rejected

  /**
   The memory of one runner process. `works` holds every promise made so far (waiting calls keep
   theirs alive), `pending` the keys of the pending map, `waiting` the calls awaiting a promise, and
   `lost` the operations whose job a storage fault left RUNNING with no work behind it.
   */
  datatype Memory = Memory(works: map<Text, Work>, pending: set<Text>, waiting: map<nat, Text>, closing: bool,
    lost: set<Text>)

  const FRESH := Memory(map[], {}, map[], false, {})

  /** The ledger and memory after a step, the reply it sends if any, and whether a job's body began. */
  datatype After = After(rows: Rows, memory: Memory, reply: Option<Reply>, began: bool)

  /** A fault of the lookup, or of one of the two statements of `start`. */
  datatype CallFault = NoCallFault | OnLookup | OnStart(fault: StoreFault)

  function Refuse(rows: Rows, m: Memory, code: Code): After {
    After(rows, m, Some(Failed(code)), false)
  }

  /** `executeRun` up to its first await. */
  function ExecuteRun(rows: Rows, m: Memory, call: nat, r: Request, executionId: Text, now: Text,
      fault: CallFault): After {
    if m.closing then Refuse(rows, m, UNAVAILABLE)
    else match Validate(r)
      case None => Refuse(rows, m, INVALID_ARGUMENT)
      case Some((behavior, payload)) =>
        Dispatch(rows, m, call, r, Unsettled(r, behavior, payload), Fingerprint(r.experimentRef, r.behavior, payload),
            executionId, now, fault)
  }

  /** A valid request: look its operation up, then retry or accept. */
  function Dispatch(rows: Rows, m: Memory, call: nat, r: Request, work: Work, fingerprint: Text, executionId: Text,
      now: Text, fault: CallFault): After {
    if fault == OnLookup then Refuse(rows, m, INTERNAL)
    else if r.operationId in rows then Retry(rows, m, call, rows[r.operationId], fingerprint)
    else Accept(rows, m, call, r, work, fingerprint, executionId, now, if fault.OnStart? then fault.fault else NoFault)
  }

  /** The operation already has a row. */
  function Retry(rows: Rows, m: Memory, call: nat, row: Row, fingerprint: Text): After {
    if row.fingerprint != fingerprint then Refuse(rows, m, ALREADY_EXISTS)
    else if row.state == INTERRUPTED then Refuse(rows, m, ABORTED)
    else if row.operationId in m.pending then After(rows, m.(waiting := m.waiting[call := row.operationId]), None,
        false)
    else if row.state == COMPLETED then After(rows, m, Some(Replied(View(row))), false)
    else Refuse(rows, m, ABORTED)
  }

  /** The job is made durable, then started. */
  function Accept(rows: Rows, m: Memory, call: nat, r: Request, work: Work, fingerprint: Text, executionId: Text,
      now: Text, fault: StoreFault): After {
    if fault == OnWrite || !Insertable(rows, r.operationId, executionId) then Refuse(rows, m, INTERNAL)
    else
      var rows' := Inserted(rows, r, fingerprint, executionId, now);
      if fault == OnReadback then Refuse(rows', m.(lost := m.lost + {r.operationId}), INTERNAL)
      else After(rows', m.(works := m.works[r.operationId := work],
                           pending := m.pending + {r.operationId},
                           waiting := m.waiting[call := r.operationId]), None, true)
  }

  /** A job's body computes its result, stores it and settles its promise. */
  function Finish(rows: Rows, m: Memory, op: Text, processedAt: Text, now: Text, fault: StoreFault): After {
    if op !in m.works || !m.works[op].Unsettled? || !Ok(m.works[op].payload) then After(rows, m, None, false)
    else
      var w := m.works[op];
      Store(rows, m, op, OutcomeText(w.behavior), Stringify(ResultOf(w.behavior, w.request.experimentRef, w.payload,
          processedAt)), now, fault)
  }

  function Store(rows: Rows, m: Memory, op: Text, outcome: Text, resultJson: Text, now: Text,
      fault: StoreFault): After {
    var rows' := if fault == OnWrite then rows else Completed(rows, op, outcome, resultJson, now);
    if fault != NoFault || op !in rows'
    then After(rows', m.(works := m.works[op := Rejected], lost := if fault == OnWrite then m.lost + {op} else m.lost),
        None, false)
    else After(rows', m.(works := m.works[op := Resolved(View(rows'[op]))]), None, false)
  }

  predicate Settled(m: Memory, op: Text) {
    op in m.works && !m.works[op].Unsettled?
  }

  /** The first caller's `finally`: the settled promise leaves the pending map. */
  function Drop(m: Memory, op: Text): Memory {
    if Settled(m, op) then m.(pending := m.pending - {op}) else m
  }

  /** What a waiting call is answered once its promise has settled. */
  function Answer(m: Memory, call: nat): Option<Reply> {
    if call in m.waiting && Settled(m, m.waiting[call])
    then match m.works[m.waiting[call]]
      case Resolved(e) => Some(Replied(e))
      case _ => Some(Failed(INTERNAL))
    else None
  }

  function Answered(m: Memory, call: nat): Memory {
    m.(waiting := Without(m.waiting, call))
  }

  function GetExecution(rows: Rows, m: Memory, op: Text, fault: bool): Reply {
    if m.closing then Failed(UNAVAILABLE)
    else if !(1 <= |op| <= 200) then Failed(INVALID_ARGUMENT)
    else if fault then Failed(INTERNAL)
    else if op in rows then Replied(View(rows[op]))
    else Failed(NOT_FOUND)
  }

  /** Nothing is left to wait for: every pending promise has settled and every call is answered. */
  predicate Quiescent(m: Memory) {
    m.closing && m.waiting == map[] && forall op :: op in m.pending ==> Settled(m, op)
  }

  // ----- the invariant of one process and its ledger

  ghost predicate WorkOk(rows: Rows, op: Text, w: Work) {
    match w
    case Unsettled(r, b, p) =>
      op in rows && rows[op].state == RUNNING && r.operationId == op && Validate(r) == Some((b, p))
      && rows[op].experimentRef == r.experimentRef && rows[op].behavior == r.behavior
          && rows[op].payloadJson == r.payloadJson
    case Resolved(e) => op in rows && rows[op].state == COMPLETED && e == View(rows[op])
    case Rejected => op in rows
  }

  /** RUNNING rows are exactly those with unsettled work, plus the ones storage faults left behind. */
  ghost predicate Accounted(rows: Rows, m: Memory) {
    && m.lost <= rows.Keys
    && (forall op :: op in m.lost ==> !Unfinished(m, op))
    && (forall op :: op in rows ==> (rows[op].state == RUNNING <==> Unfinished(m, op) || op in m.lost))
  }

  predicate Unfinished(m: Memory, op: Text) {
    op in m.works && m.works[op].Unsettled?
  }

  ghost predicate MemoryOk(rows: Rows, m: Memory) {
    && RowsOk(rows)
    && m.pending <= m.works.Keys
    && (forall op :: op in m.works ==> WorkOk(rows, op, m.works[op]) && (m.works[op].Unsettled? ==> op in m.pending))
    && (forall c :: c in m.waiting ==> m.waiting[c] in m.works)
    && Accounted(rows, m)
  }

  /** A successful execution reply is the ledger's own COMPLETED row. */
  ghost predicate ReplyOk(rows: Rows, reply: Reply) {
    reply.Replied? ==>
      var op := reply.execution.operationId;
      op in rows && rows[op].state == COMPLETED && reply.execution == View(rows[op])
  }

  lemma RetryKeepsOk(rows: Rows, m: Memory, call: nat, op: Text, fingerprint: Text)
    requires MemoryOk(rows, m) && op in rows
    ensures var a := Retry(rows, m, call, rows[op], fingerprint);
            a.rows == rows && !a.began && MemoryOk(rows, a.memory) && (a.reply.Some? ==> ReplyOk(rows, a.reply.value))
            && a.memory.lost == m.lost
  {
  }

  lemma WorksHaveRows(rows: Rows, m: Memory)
    requires MemoryOk(rows, m)
    ensures m.works.Keys <= rows.Keys
  {
    forall op | op in m.works ensures op in rows {
      assert WorkOk(rows, op, m.works[op]);
    }
  }

  /** A change to one row and one promise keeps every other promise in step with the ledger. */
  lemma OneOperationKeepsOk(rows: Rows, m: Memory, rows': Rows, m': Memory, op: Text)
    requires MemoryOk(rows, m) && RowsOk(rows')
    requires forall q :: q != op ==> (q in rows <==> q in rows') && (q in rows ==> rows'[q] == rows[q])
    requires forall q :: q != op ==> (q in m.works <==> q in m'.works) && (q in m.works ==> m'.works[q] == m.works[q])
    requires forall q :: q != op ==> (q in m.lost <==> q in m'.lost) && (q in m.pending <==> q in m'.pending)
    requires op in m'.works ==> WorkOk(rows', op, m'.works[op]) && (m'.works[op].Unsettled? ==> op in m'.pending)
    requires op in m.works ==> op in m'.works
    requires op in m'.pending ==> op in m'.works
    requires op in rows' && (rows'[op].state == RUNNING <==> Unfinished(m', op) || op in m'.lost)
    requires op in m'.lost ==> !Unfinished(m', op)
    requires forall c :: c in m'.waiting ==>
        (c in m.waiting && m'.waiting[c] == m.waiting[c]) || m'.waiting[c] in m'.works
    ensures MemoryOk(rows', m')
  {
    forall q | q in m'.works ensures WorkOk(rows', q, m'.works[q]) && (m'.works[q].Unsettled? ==> q in m'.pending) {
      if q != op { assert WorkOk(rows, q, m.works[q]); }
    }
    forall q | q in m'.pending ensures q in m'.works {
      if q != op { assert q in m.pending; }
    }
    forall q | q in m'.lost ensures q in rows' && !Unfinished(m', q) {
      if q != op { assert q in m.lost; }
    }
    forall q | q in rows' ensures rows'[q].state == RUNNING <==> Unfinished(m', q) || q in m'.lost {
      if q != op { assert Unfinished(m', q) <==> Unfinished(m, q); }
    }
  }

  lemma AcceptKeepsOk(rows: Rows, m: Memory, call: nat, r: Request, w: Work, fingerprint: Text, executionId: Text,
      now: Text, fault: StoreFault)
    requires MemoryOk(rows, m) && r.operationId !in rows
    requires w.Unsettled? && w.request == r && Validate(r) == Some((w.behavior, w.payload))
    ensures var a := Accept(rows, m, call, r, w, fingerprint, executionId, now, fault);
            && MemoryOk(a.rows, a.memory) && Extends(rows, a.rows)
            && (a.reply.Some? ==> a.reply.value.Failed?)
            && (a.began ==> r.operationId in a.rows)
            && (fault == NoFault ==> a.memory.lost == m.lost)
  {
    var op := r.operationId;
    var a := Accept(rows, m, call, r, w, fingerprint, executionId, now, fault);
    WorksHaveRows(rows, m);
    assert m.lost <= rows.Keys;
    if fault != OnWrite && Insertable(rows, op, executionId) {
      InsertedOk(rows, r, fingerprint, executionId, now);
      hide MemoryOk, RowsOk, Insertable;
      OneOperationKeepsOk(rows, m, a.rows, a.memory, op);
    }
  }

  lemma DispatchKeepsOk(rows: Rows, m: Memory, call: nat, r: Request, w: Work, fingerprint: Text, executionId: Text,
      now: Text, fault: CallFault)
    requires MemoryOk(rows, m)
    requires w.Unsettled? && w.request == r && Validate(r) == Some((w.behavior, w.payload))
    ensures var a := Dispatch(rows, m, call, r, w, fingerprint, executionId, now, fault);
            && MemoryOk(a.rows, a.memory) && Extends(rows, a.rows)
            && (a.reply.Some? ==> ReplyOk(a.rows, a.reply.value))
            && (a.began ==> r.operationId !in rows && r.operationId in a.rows)
            && (fault == NoCallFault ==> a.memory.lost == m.lost)
  {
    if fault != OnLookup {
      if r.operationId in rows {
        RetryKeepsOk(rows, m, call, r.operationId, fingerprint);
      } else {
        AcceptKeepsOk(rows, m, call, r, w, fingerprint, executionId, now, if fault.OnStart? then fault.fault
            else NoFault);
      }
    }
  }

  lemma ExecuteRunKeepsOk(rows: Rows, m: Memory, call: nat, r: Request, executionId: Text, now: Text, fault: CallFault)
    requires MemoryOk(rows, m)
    ensures var a := ExecuteRun(rows, m, call, r, executionId, now, fault);
            && MemoryOk(a.rows, a.memory) && Extends(rows, a.rows)
            && (a.reply.Some? ==> ReplyOk(a.rows, a.reply.value))
            && (a.began ==> r.operationId !in rows && r.operationId in a.rows)
            && (fault == NoCallFault ==> a.memory.lost == m.lost)
  {
    if !m.closing && Validate(r).Some? {
      var v := Validate(r).value;
      DispatchKeepsOk(rows, m, call, r, Unsettled(r, v.0, v.1), Fingerprint(r.experimentRef, r.behavior, v.1),
          executionId, now, fault);
    }
  }

  /** Settling one promise over a ledger in which only its own row may have changed. */
  lemma SettleKeepsOk(rows: Rows, m: Memory, rows': Rows, op: Text, w: Work, lost: set<Text>)
    requires MemoryOk(rows, m) && RowsOk(rows') && op in m.works && op in rows'
    requires rows' == rows[op := rows'[op]] && !w.Unsettled? && WorkOk(rows', op, w)
    requires m.lost <= lost <= m.lost + {op} && (rows'[op].state == RUNNING <==> op in lost)
    ensures MemoryOk(rows', m.(works := m.works[op := w], lost := lost))
  {
    OneOperationKeepsOk(rows, m, rows', m.(works := m.works[op := w], lost := lost), op);
  }

  lemma StoreKeepsOk(rows: Rows, m: Memory, op: Text, outcome: Text, resultJson: Text, now: Text, fault: StoreFault)
    requires MemoryOk(rows, m) && Unfinished(m, op) && op in rows && rows[op].state == RUNNING
    ensures var a := Store(rows, m, op, outcome, resultJson, now, fault);
            MemoryOk(a.rows, a.memory) && Extends(rows, a.rows) && a.memory.waiting == m.waiting
            && (fault == NoFault ==> a.memory.lost == m.lost)
  {
    CompletedOk(rows, op, outcome, resultJson, now);
    assert op !in m.lost;
    hide MemoryOk, RowsOk;
    if fault == OnWrite {
      SettleKeepsOk(rows, m, rows, op, Rejected, m.lost + {op});
    } else {
      var rows' := Completed(rows, op, outcome, resultJson, now);
      SettleKeepsOk(rows, m, rows', op, if fault == NoFault then Resolved(View(rows'[op])) else Rejected, m.lost);
    }
  }

  lemma FinishKeepsOk(rows: Rows, m: Memory, op: Text, processedAt: Text, now: Text, fault: StoreFault)
    requires MemoryOk(rows, m)
    ensures var a := Finish(rows, m, op, processedAt, now, fault);
            MemoryOk(a.rows, a.memory) && Extends(rows, a.rows) && a.memory.waiting == m.waiting
            && (fault == NoFault ==> a.memory.lost == m.lost)
  {
    if op in m.works && m.works[op].Unsettled? && Ok(m.works[op].payload) {
      var w := m.works[op];
      assert WorkOk(rows, op, w);
      StoreKeepsOk(rows, m, op, OutcomeText(w.behavior), Stringify(ResultOf(w.behavior, w.request.experimentRef,
          w.payload, processedAt)), now, fault);
    }
  }

  lemma DropKeepsOk(rows: Rows, m: Memory, op: Text)
    requires MemoryOk(rows, m)
    ensures MemoryOk(rows, Drop(m, op))
  {
    var m' := Drop(m, op);
    forall q | q in m'.works ensures WorkOk(rows, q, m'.works[q]) && (m'.works[q].Unsettled? ==> q in m'.pending) {
      assert WorkOk(rows, q, m.works[q]);
    }
    assert forall q :: Unfinished(m', q) <==> Unfinished(m, q);
  }

  lemma AnsweredWaiting(m: Memory, call: nat)
    requires Answer(m, call).Some?
    ensures call in m.waiting && call !in Answered(m, call).waiting
    ensures forall c :: c in Answered(m, call).waiting ==>
        c in m.waiting && Answered(m, call).waiting[c] == m.waiting[c]
  {
  }

  lemma AnswerKeepsOk(rows: Rows, m: Memory, call: nat)
    requires MemoryOk(rows, m) && Answer(m, call).Some?
    ensures MemoryOk(rows, Answered(m, call)) && ReplyOk(rows, Answer(m, call).value)
    ensures Answer(m, call).value.Replied? ==> Answer(m, call).value.execution.operationId == m.waiting[call]
  {
    var m' := Answered(m, call);
    var op := m.waiting[call];
    assert WorkOk(rows, op, m.works[op]);
    forall q | q in m'.works ensures WorkOk(rows, q, m'.works[q]) && (m'.works[q].Unsettled? ==> q in m'.pending) {
      assert WorkOk(rows, q, m.works[q]);
    }
    assert forall q :: Unfinished(m', q) <==> Unfinished(m, q);
  }

  /** The fingerprint of a request, when it is valid. */
  function RequestFingerprint(r: Request): Option<Text> {
    match Validate(r)
    case None => None
    case Some((_, payload)) => Some(Fingerprint(r.experimentRef, r.behavior, payload))
  }

  /** The operation's row was accepted for a request with this fingerprint. */
  ghost predicate JobOf(rows: Rows, op: Text, fingerprint: Option<Text>) {
    op in rows && fingerprint == Some(rows[op].fingerprint)
  }

  lemma RetryJob(rows: Rows, m: Memory, call: nat, op: Text, fingerprint: Text)
    requires RowsOk(rows) && op in rows
    ensures var a := Retry(rows, m, call, rows[op], fingerprint);
            && (a.reply.Some? && a.reply.value.Replied? ==>
                a.reply.value.execution.operationId == op && rows[op].fingerprint == fingerprint)
            && (a.memory.waiting == m.waiting
                || (a.reply.None? && a.memory.waiting == m.waiting[call := op] && rows[op].fingerprint == fingerprint))
  {
  }

  lemma AcceptJob(rows: Rows, m: Memory, call: nat, r: Request, w: Work, fingerprint: Text, executionId: Text,
      now: Text, fault: StoreFault)
    ensures var a := Accept(rows, m, call, r, w, fingerprint, executionId, now, fault);
            && (a.reply.Some? ==> a.reply.value.Failed?)
            && (a.memory.waiting == m.waiting
                || (a.reply.None? && a.memory.waiting == m.waiting[call := r.operationId]
                    && r.operationId in a.rows && a.rows[r.operationId].fingerprint == fingerprint))
  {
  }

  lemma DispatchJob(rows: Rows, m: Memory, call: nat, r: Request, w: Work, fingerprint: Text, executionId: Text,
      now: Text, fault: CallFault)
    requires RowsOk(rows)
    ensures var a := Dispatch(rows, m, call, r, w, fingerprint, executionId, now, fault);
            var mine := r.operationId in a.rows && a.rows[r.operationId].fingerprint == fingerprint;
            && (a.reply.Some? && a.reply.value.Replied? ==>
                a.reply.value.execution.operationId == r.operationId && mine)
            && (a.memory.waiting == m.waiting || (a.reply.None? && a.memory.waiting == m.waiting[call := r.operationId]
                && mine))
  {
    if fault != OnLookup {
      if r.operationId in rows {
        RetryJob(rows, m, call, r.operationId, fingerprint);
      } else {
        AcceptJob(rows, m, call, r, w, fingerprint, executionId, now, if fault.OnStart? then fault.fault else NoFault);
      }
    }
  }

  /** A call that is answered with an execution, or made to wait, is for that operation's own request. */
  lemma ExecuteRunJob(rows: Rows, m: Memory, call: nat, r: Request, executionId: Text, now: Text, fault: CallFault)
    requires RowsOk(rows)
    ensures var a := ExecuteRun(rows, m, call, r, executionId, now, fault);
            var mine := JobOf(a.rows, r.operationId, RequestFingerprint(r));
            && (a.reply.Some? && a.reply.value.Replied? ==>
                a.reply.value.execution.operationId == r.operationId && mine)
            && (a.memory.waiting == m.waiting || (a.reply.None? && a.memory.waiting == m.waiting[call := r.operationId]
                && mine))
  {
    if !m.closing && Validate(r).Some? {
      var v := Validate(r).value;
      DispatchJob(rows, m, call, r, Unsettled(r, v.0, v.1), Fingerprint(r.experimentRef, r.behavior, v.1), executionId,
          now, fault);
    }
  }

  // ----- completed rows hold what their request earns

  lemma NewRowFaithful(r: Request, fingerprint: Text, executionId: Text, now: Text)
    requires IsUuid(executionId) && IsInstant(now) && RequestFingerprint(r) == Some(fingerprint)
    ensures Faithful(Inserted(map[], r, fingerprint, executionId, now)[r.operationId])
  {
    BehaviorReadsBack(Validate(r).value.0);
  }

  lemma ExecuteRunFaithful(rows: Rows, m: Memory, call: nat, r: Request, executionId: Text, now: Text, fault: CallFault)
    requires RowsFaithful(rows) && IsUuid(executionId) && IsInstant(now)
    ensures RowsFaithful(ExecuteRun(rows, m, call, r, executionId, now, fault).rows)
  {
    if !m.closing && Validate(r).Some? {
      var v := Validate(r).value;
      var fingerprint := Fingerprint(r.experimentRef, r.behavior, v.1);
      NewRowFaithful(r, fingerprint, executionId, now);
      DispatchFaithful(rows, m, call, r, Unsettled(r, v.0, v.1), fingerprint, executionId, now, fault);
    }
  }

  lemma DispatchRows(rows: Rows, m: Memory, call: nat, r: Request, w: Work, fingerprint: Text, executionId: Text,
      now: Text, fault: CallFault)
    ensures var a := Dispatch(rows, m, call, r, w, fingerprint, executionId, now, fault);
            a.rows == rows || a.rows == rows[r.operationId := Inserted(map[], r, fingerprint, executionId,
                now)[r.operationId]]
  {
  }

  lemma DispatchFaithful(rows: Rows, m: Memory, call: nat, r: Request, w: Work, fingerprint: Text, executionId: Text,
      now: Text, fault: CallFault)
    requires RowsFaithful(rows) && Faithful(Inserted(map[], r, fingerprint, executionId, now)[r.operationId])
    ensures RowsFaithful(Dispatch(rows, m, call, r, w, fingerprint, executionId, now, fault).rows)
  {
    OneRowFaithful(rows, r.operationId, Inserted(map[], r, fingerprint, executionId, now)[r.operationId]);
    DispatchRows(rows, m, call, r, w, fingerprint, executionId, now, fault);
  }

  lemma EarnedRowFaithful(row: Row, w: Work, processedAt: Text, now: Text)
    requires Faithful(row) && w.Unsettled? && IsInstant(processedAt) && Ok(w.payload)
    requires Validate(w.request) == Some((w.behavior, w.payload))
    requires row.experimentRef == w.request.experimentRef && row.behavior == w.request.behavior
        && row.payloadJson == w.request.payloadJson
    ensures Faithful(row.(state := COMPLETED, outcome := OutcomeText(w.behavior),
                          resultJson := Stringify(ResultOf(w.behavior, row.experimentRef, w.payload, processedAt)),
                              completedAt := now))
  {
    BehaviorReadsBack(w.behavior);
  }

  lemma StoreRows(rows: Rows, m: Memory, op: Text, outcome: Text, resultJson: Text, now: Text, fault: StoreFault)
    ensures var a := Store(rows, m, op, outcome, resultJson, now, fault);
            a.rows == rows || a.rows == Completed(rows, op, outcome, resultJson, now)
  {
  }

  lemma StoreFaithful(rows: Rows, m: Memory, op: Text, outcome: Text, resultJson: Text, now: Text, fault: StoreFault)
    requires RowsFaithful(rows) && op in rows
    requires Faithful(rows[op].(state := COMPLETED, outcome := outcome, resultJson := resultJson, completedAt := now))
    ensures RowsFaithful(Store(rows, m, op, outcome, resultJson, now, fault).rows)
  {
    StoreRows(rows, m, op, outcome, resultJson, now, fault);
    CompletedFaithful(rows, op, outcome, resultJson, now);
  }

  lemma FinishFaithful(rows: Rows, m: Memory, op: Text, processedAt: Text, now: Text, fault: StoreFault)
    requires MemoryOk(rows, m) && RowsFaithful(rows) && IsInstant(processedAt)
    ensures RowsFaithful(Finish(rows, m, op, processedAt, now, fault).rows)
  {
    if op in m.works && m.works[op].Unsettled? && Ok(m.works[op].payload) {
      var w := m.works[op];
      assert WorkOk(rows, op, w);
      EarnedRowFaithful(rows[op], w, processedAt, now);
      StoreFaithful(rows, m, op, OutcomeText(w.behavior), Stringify(ResultOf(w.behavior, w.request.experimentRef,
          w.payload, processedAt)), now, fault);
    }
  }

  lemma CompletedFaithful(rows: Rows, op: Text, outcome: Text, resultJson: Text, now: Text)
    requires RowsFaithful(rows) && op in rows
    requires Faithful(rows[op].(state := COMPLETED, outcome := outcome, resultJson := resultJson, completedAt := now))
    ensures RowsFaithful(Completed(rows, op, outcome, resultJson, now))
  {
    OneRowFaithful(rows, op, rows[op].(state := COMPLETED, outcome := outcome, resultJson := resultJson,
        completedAt := now));
  }
}

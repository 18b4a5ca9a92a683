/**
 What a caller of the runner gets (runner/src/app.ts:28-64), end to end: a new request is executed and
 answered, a retry is answered with the same record, and exactly the changed requests are refused.
 */
module RunnerAnswers {
  import opened Wrappers
  import opened JsonNumber
  import opened JsonString
  import opened Json
  import opened CanonicalJson
  import opened Identity
  import opened Protocol
  import opened Ledger
  import opened Runner

  // ----- which requests are executed at all

  predicate IsBehavior(t: Text) {
    t == Ascii("healthy") || t == Ascii("slow") || t == Ascii("unavailable") || t == Ascii("malformed")
  }

  predicate IsObjectText(t: Text) {
    match Parse(t) case Some(Obj(_)) => true case _ => false
  }

  lemma BehaviorsAreFour(t: Text)
    ensures ParseBehavior(t).Some? <==> IsBehavior(t)
  {
  }

  /**
   A call is refused as invalid if and only if the runner is not closing and the request breaks one of its
   limits: 1 to 200 units of operation id, a UUID, 1 to 80 units of reference, one of four behaviours, and
   an object of at most 64000 units and 64000 bytes.
   */
  lemma InvalidRequestsAreRefused(rows: Rows, m: Memory, call: nat, r: Request, executionId: Text, now: Text,
      fault: CallFault)
    ensures ExecuteRun(rows, m, call, r, executionId, now, fault).reply == Some(Failed(INVALID_ARGUMENT)) <==>
              !m.closing && !(&& 1 <= |r.operationId| <= 200 && IsUuid(r.correlationId) && 1 <= |r.experimentRef| <= 80
                              && IsBehavior(r.behavior) && IsObjectText(r.payloadJson)
                              && |r.payloadJson| <= 64000 && Utf8Length(r.payloadJson) <= 64000)
  {
    BehaviorsAreFour(r.behavior);
    hide Parse, IsUuid, IsBehavior, ParseBehavior, Utf8Length, Fingerprint, Inserted, Insertable, View, Ok;
  }

  /** A call is refused as unavailable if and only if the runner is closing, and then nothing changes. */
  lemma ClosingRefusesCalls(rows: Rows, m: Memory, call: nat, r: Request, executionId: Text, now: Text,
      fault: CallFault)
    ensures var a := ExecuteRun(rows, m, call, r, executionId, now, fault);
            && (a.reply == Some(Failed(UNAVAILABLE)) <==> m.closing)
            && (m.closing ==> a.rows == rows && a.memory == m && !a.began)
  {
    hide Validate, Fingerprint, Inserted, Insertable, View;
  }

  /**
   A valid call fails as internal at once if and only if a statement of the ledger failed: the lookup, or
   for a new operation the insertion, by a fault or by a key in use, or its read-back. A new operation's
   job begins in every other case.
   */
  lemma StorageFailuresAreInternal(rows: Rows, m: Memory, call: nat, r: Request, executionId: Text, now: Text,
      fault: CallFault)
    requires !m.closing && Validate(r).Some?
    ensures var a := ExecuteRun(rows, m, call, r, executionId, now, fault);
            var failed := fault == OnLookup || (r.operationId !in rows &&
                ((fault.OnStart? && fault.fault != NoFault) || !Insertable(rows, r.operationId, executionId)));
            && (a.reply == Some(Failed(INTERNAL)) <==> failed)
            && (a.began <==> r.operationId !in rows && !failed)
  {
    hide Validate, Fingerprint, Inserted, Insertable, View;
  }

  /**
   Every request the coordinator makes for an accepted path, key and exchange is valid if its payload is
   not too long.
   */
  lemma OrdinaryRequestsAreValid(r: Request, namespace: Text, segment: Text, subject: Text, b: Behavior, payload: Json)
    requires IsNamespace(namespace) && ParseExperimentId(segment).Some?
    requires IsHeaderValue(subject, 80) || IsUuid(subject)
    requires r.operationId == OperationId(namespace, ParseExperimentId(segment).value, subject)
    requires r.experimentRef == ExperimentRef(namespace, ParseExperimentId(segment).value)
    requires IsUuid(r.correlationId) && r.behavior == BehaviorText(b)
    requires Ok(payload) && payload.Obj? && r.payloadJson == Stringify(payload)
    requires |Stringify(payload)| <= 64000 && Utf8Length(Stringify(payload)) <= 64000
    ensures Validate(r) == Some((b, payload))
  {
    hide OperationId, ExperimentRef, ParseExperimentId, Parse, Stringify, Utf8Length, Ok, ParseBehavior, IsUuid;
    SubjectLength(subject);
    ReferencesWithinRunnerLimits(namespace, segment, subject);
    BehaviorReadsBack(b);
    ParseStringify(payload);
  }

  lemma SubjectLength(subject: Text)
    requires IsHeaderValue(subject, 80) || IsUuid(subject)
    ensures |subject| <= 80
  {
  }

  // ----- a new request

  lemma NewRequestIsAccepted(rows: Rows, m: Memory, call: nat, r: Request, b: Behavior, payload: Json,
      executionId: Text, now: Text)
    requires !m.closing && Validate(r) == Some((b, payload)) && Insertable(rows, r.operationId, executionId)
    ensures var a := ExecuteRun(rows, m, call, r, executionId, now, NoCallFault);
            && a.began && a.reply.None?
            && a.rows == Inserted(rows, r, Fingerprint(r.experimentRef, r.behavior, payload), executionId, now)
            && a.memory.works == m.works[r.operationId := Unsettled(r, b, payload)]
            && call in a.memory.waiting && a.memory.waiting[call] == r.operationId
  {
    hide Validate, Fingerprint, Inserted;
  }

  /** Finishing the job of a RUNNING row settles its promise with the COMPLETED row. */
  lemma FinishSettles(rows: Rows, m: Memory, op: Text, b: Behavior, payload: Json, processedAt: Text, later: Text)
    requires op in m.works && m.works[op].Unsettled? && m.works[op].behavior == b && m.works[op].payload == payload
        && Ok(payload)
    requires op in rows && rows[op].state == RUNNING && m.works[op].request.experimentRef == rows[op].experimentRef
    ensures var f := Finish(rows, m, op, processedAt, later, NoFault);
            var row := rows[op].(state := COMPLETED, outcome := OutcomeText(b),
                                 resultJson := Stringify(ResultOf(b, rows[op].experimentRef, payload, processedAt)),
                                     completedAt := later);
            f.rows == rows[op := row] && f.memory.works == m.works[op := Resolved(View(row))]
                && f.memory.waiting == m.waiting
  {
    hide OutcomeText, Stringify, ResultOf, Ok, View;
  }

  /**
   Without a fault, a valid request for a new operation starts the job, and when the job has finished
   the caller is answered with a COMPLETED execution that the coordinator classifies as the behaviour
   calls for.
   */
  lemma NewRequestIsAnswered(rows: Rows, m: Memory, call: nat, r: Request, payload: Json, executionId: Text, now: Text,
      processedAt: Text, later: Text)
    requires !m.closing && Insertable(rows, r.operationId, executionId)
    requires Ok(payload) && r.payloadJson == Stringify(payload) && Validate(r).Some?
    requires IsUuid(executionId) && IsInstant(now) && IsInstant(processedAt)
    ensures var a := ExecuteRun(rows, m, call, r, executionId, now, NoCallFault);
            var f := Finish(a.rows, a.memory, r.operationId, processedAt, later, NoFault);
            var reply := Answer(f.memory, call);
            && a.began && reply.Some? && reply.value.Replied? && r.operationId in f.rows
            && reply.value.execution == View(f.rows[r.operationId])
            && reply.value.execution.executionId == executionId && reply.value.execution.startedAt == now
            && reply.value.execution.completedAt == later && reply.value.execution.operationId == r.operationId
            && Classify(reply.value.execution, r.operationId, r.experimentRef, payload) == Expected(Validate(r).value.0)
  {
    hide Validate, ExecuteRun, Stringify, Fingerprint, Ok, IsUuid, IsInstant, Classify, Finish, Insertable;
    var b, op := Validate(r).value.0, r.operationId;
    ValidatedPayload(r, payload);
    NewRequestIsAccepted(rows, m, call, r, b, payload, executionId, now);
    var a := ExecuteRun(rows, m, call, r, executionId, now, NoCallFault);
    FinishSettles(a.rows, a.memory, op, b, payload, processedAt, later);
    EarnedAnswer(Finish(a.rows, a.memory, op, processedAt, later, NoFault).rows[op], b, payload, processedAt);
  }

  lemma ValidatedPayload(r: Request, payload: Json)
    requires Ok(payload) && r.payloadJson == Stringify(payload) && Validate(r).Some?
    ensures Validate(r).value.1 == payload && payload.Obj?
  {
    ParseStringify(payload);
    hide Stringify, Parse, Ok, IsUuid, ParseBehavior, Utf8Length;
  }

  lemma EarnedAnswer(row: Row, b: Behavior, payload: Json, processedAt: Text)
    requires IsUuid(row.executionId) && IsInstant(row.startedAt) && IsInstant(processedAt) && row.state == COMPLETED
        && Ok(payload) && payload.Obj?
    requires row.outcome == OutcomeText(b) && row.resultJson
        == Stringify(ResultOf(b, row.experimentRef, payload, processedAt))
    ensures Classify(View(row), row.operationId, row.experimentRef, payload) == Expected(b)
  {
    EquivalentReflexive(payload);
    CompletedIsValid(row);
    hide Stringify, Ok, IsUuid, IsInstant, Classify, Equivalent, ValidExecution, ResultOf;
    CompletedJobClassified(View(row), b, payload, payload, processedAt);
  }

  lemma CompletedIsValid(row: Row)
    requires IsUuid(row.executionId) && IsInstant(row.startedAt)
    ensures ValidExecution(View(row))
  {
  }

  /** A lookup later gets the record the caller was answered with, unless the runner is closing or fails to read. */
  lemma LookupGetsTheRecord(rows: Rows, m: Memory, op: Text)
    requires op in rows && 1 <= |op| <= 200 && !m.closing
    ensures GetExecution(rows, m, op, false) == Replied(View(rows[op]))
    ensures GetExecution(rows, m, op, false).execution.operationId == rows[op].operationId
        && GetExecution(rows, m, op, false).execution.state == StateText(rows[op].state)
        && GetExecution(rows, m, op, false).execution.resultJson == rows[op].resultJson
  {
  }

  // ----- a request for an operation that has a row

  /** The request the row was made for, up to the order of the payload's members. */
  predicate SameRequest(row: Row, r: Request, payload: Json) {
    row.experimentRef == r.experimentRef && row.behavior == r.behavior
    && match Parse(row.payloadJson) case Some(echo) => Equivalent(echo, payload) case None => false
  }

  lemma FingerprintTells(row: Row, r: Request, payload: Json)
    requires Faithful(row) && Ok(payload)
    ensures row.fingerprint == Fingerprint(r.experimentRef, r.behavior, payload) <==> SameRequest(row, r, payload)
  {
    hide Fingerprint, Parse, Earned, IsUuid, IsInstant;
    FingerprintExact(row.experimentRef, row.behavior, Parse(row.payloadJson).value, r.experimentRef, r.behavior,
        payload);
  }

  lemma KnownOperationIsRetried(rows: Rows, m: Memory, call: nat, r: Request, b: Behavior, payload: Json,
      executionId: Text, now: Text)
    requires !m.closing && Validate(r) == Some((b, payload)) && r.operationId in rows
    ensures ExecuteRun(rows, m, call, r, executionId, now, NoCallFault)
            == Retry(rows, m, call, rows[r.operationId], Fingerprint(r.experimentRef, r.behavior, payload))
  {
    hide Validate, Fingerprint, Retry, Accept;
  }

  lemma FaithfulRow(rows: Rows, op: Text)
    requires RowsFaithful(rows) && op in rows
    ensures Faithful(rows[op])
  {
    hide Faithful;
  }

  /**
   Exactly the requests that differ from the row's own are refused as belonging to another request:
   a retry with its members in another order is not, and a changed reference, behaviour or value is.
   */
  lemma ChangedRequestsAreRefused(rows: Rows, m: Memory, call: nat, r: Request, b: Behavior, payload: Json,
      executionId: Text, now: Text)
    requires RowsFaithful(rows) && !m.closing && Validate(r) == Some((b, payload)) && r.operationId in rows
    ensures var a := ExecuteRun(rows, m, call, r, executionId, now, NoCallFault);
            (a.reply == Some(Failed(ALREADY_EXISTS)) <==> !SameRequest(rows[r.operationId], r, payload))
                && a.rows == rows && !a.began
  {
    hide Validate, RowsFaithful, Faithful, Fingerprint, SameRequest, ExecuteRun, View, Ok;
    ValidPayload(r);
    FaithfulRow(rows, r.operationId);
    KnownOperationIsRetried(rows, m, call, r, b, payload, executionId, now);
    FingerprintTells(rows[r.operationId], r, payload);
  }

  lemma ValidPayload(r: Request)
    requires Validate(r).Some?
    ensures Ok(Validate(r).value.1)
  {
    hide Ok;
  }

  /**
   A retry of a completed operation gets the completed record: at once, or from the promise that is
   still pending, unless reading the record back failed when the job was stored.
   */
  lemma RetriesGetTheRecord(rows: Rows, m: Memory, call: nat, r: Request, b: Behavior, payload: Json, executionId: Text,
      now: Text)
    requires MemoryOk(rows, m) && RowsFaithful(rows) && !m.closing && Validate(r) == Some((b, payload))
    requires r.operationId in rows && rows[r.operationId].state == COMPLETED
        && SameRequest(rows[r.operationId], r, payload)
    ensures var a := ExecuteRun(rows, m, call, r, executionId, now, NoCallFault);
            var reply := if a.reply.Some? then a.reply else Answer(a.memory, call);
            && reply.Some? && a.rows == rows && !a.began
            && (reply == Some(Replied(View(rows[r.operationId])))
                || (reply == Some(Failed(INTERNAL)) && r.operationId in m.pending && r.operationId in m.works
                    && m.works[r.operationId] == Rejected))
  {
    hide Validate, RowsFaithful, Faithful, Fingerprint, SameRequest, ExecuteRun, View, Ok, MemoryOk;
    ValidPayload(r);
    FaithfulRow(rows, r.operationId);
    KnownOperationIsRetried(rows, m, call, r, b, payload, executionId, now);
    FingerprintTells(rows[r.operationId], r, payload);
    PendingWork(rows, m, r.operationId);
  }

  /** Behind a COMPLETED row a pending promise has settled, with that row or with the fault of reading it back. */
  lemma PendingWork(rows: Rows, m: Memory, op: Text)
    requires MemoryOk(rows, m) && op in rows && rows[op].state == COMPLETED
    ensures rows[op].operationId == op
    ensures op in m.pending ==> op in m.works && (m.works[op] == Rejected || m.works[op] == Resolved(View(rows[op])))
  {
    hide View, Validate, Accounted;
    if op in m.pending { assert WorkOk(rows, op, m.works[op]); }
  }

  /**
   Without a fault a request for its own operation is refused as needing inspection if and only if the
   operation was interrupted by a restart, or a storage fault left it RUNNING and nobody waits for it. While
   a job is pending the request waits for it.
   */
  lemma InterruptedIsAborted(rows: Rows, m: Memory, call: nat, r: Request, b: Behavior, payload: Json,
      executionId: Text, now: Text)
    requires MemoryOk(rows, m) && RowsFaithful(rows) && !m.closing && Validate(r) == Some((b, payload))
    requires r.operationId in rows && SameRequest(rows[r.operationId], r, payload)
    ensures var a := ExecuteRun(rows, m, call, r, executionId, now, NoCallFault);
            var (state, pending) := (rows[r.operationId].state, r.operationId in m.pending);
            && (a.reply == Some(Failed(ABORTED)) <==>
                  state == INTERRUPTED || (state == RUNNING && r.operationId in m.lost && !pending))
            && (state != INTERRUPTED && pending ==>
                  a.reply.None? && a.memory.waiting == m.waiting[call := r.operationId])
  {
    hide Validate, RowsFaithful, Faithful, Fingerprint, SameRequest, ExecuteRun, View, Ok, MemoryOk;
    ValidPayload(r);
    FaithfulRow(rows, r.operationId);
    KnownOperationIsRetried(rows, m, call, r, b, payload, executionId, now);
    FingerprintTells(rows[r.operationId], r, payload);
    AbandonedIsLost(rows, m, r.operationId);
  }

  lemma AbandonedIsLost(rows: Rows, m: Memory, op: Text)
    requires MemoryOk(rows, m) && op in rows
    ensures rows[op].operationId == op
    ensures rows[op].state == RUNNING && op !in m.pending ==> op in m.lost
  {
    hide View, Validate, WorkOk;
  }

  /**
   Once the promise of a completed operation has left the pending map every retry is answered with the
   stored record, whatever the promise itself came to; until it has settled it stays.
   */
  lemma RetriesAfterDrop(rows: Rows, m: Memory, call: nat, r: Request, b: Behavior, payload: Json, executionId: Text,
      now: Text)
    requires MemoryOk(rows, m) && RowsFaithful(rows) && !m.closing && Validate(r) == Some((b, payload))
    requires r.operationId in rows && SameRequest(rows[r.operationId], r, payload)
    ensures rows[r.operationId].state == COMPLETED ==>
              ExecuteRun(rows, Drop(m, r.operationId), call, r, executionId, now, NoCallFault).reply
              == Some(Replied(View(rows[r.operationId])))
    ensures Unfinished(m, r.operationId) ==> r.operationId in Drop(m, r.operationId).pending
    ensures forall op :: op != r.operationId ==> (op in Drop(m, r.operationId).pending <==> op in m.pending)
  {
    hide Validate, RowsFaithful, Faithful, Fingerprint, SameRequest, ExecuteRun, View, Ok, MemoryOk, Drop, Unfinished;
    DropForgets(rows, m, r.operationId);
    var n := Drop(m, r.operationId);
    ValidPayload(r);
    FaithfulRow(rows, r.operationId);
    KnownOperationIsRetried(rows, n, call, r, b, payload, executionId, now);
    FingerprintTells(rows[r.operationId], r, payload);
  }

  lemma DropForgets(rows: Rows, m: Memory, op: Text)
    requires MemoryOk(rows, m) && op in rows
    ensures rows[op].operationId == op && Drop(m, op).closing == m.closing
    ensures rows[op].state == COMPLETED ==> op !in Drop(m, op).pending
    ensures Unfinished(m, op) ==> op in Drop(m, op).pending
    ensures forall q :: q != op ==> (q in Drop(m, op).pending <==> q in m.pending)
  {
    hide View, Validate;
    if op in m.works { assert WorkOk(rows, op, m.works[op]); }
  }
}

/**
 The runner's handlers as the program runs them (runner/src/app.ts:48-102), against a store object
 and an in-memory map. Each is proved to take the step that module Runner describes.
 */
module RunnerApp {
  import opened Wrappers
  import opened JsonNumber
  import opened Json
  import opened Protocol
  import opened Ledger
  import opened Runner

  class App {
    const store: ExecutionStore
    var works: map<Text, Work>
    var pending: set<Text>
    var waiting: map<nat, Text>
    var closing: bool
    ghost var lost: set<Text>

    ghost function State(): Memory
      reads this
    {
      Memory(works, pending, waiting, closing, lost)
    }

    ghost predicate Valid()
      reads this, store
    {
      MemoryOk(store.rows, State())
    }

    /** Startup: recovery has run, so no row is RUNNING and the memory is empty. */
    constructor (store: ExecutionStore, now: Text)
      requires RowsOk(store.rows)
      modifies store
      ensures this.store == store && Valid() && State() == FRESH
      ensures store.rows == Recovered(old(store.rows), now)
      ensures forall op :: op in store.rows ==> store.rows[op].state != RUNNING
    {
      this.store := store;
      works, pending, waiting, closing, lost := map[], {}, map[], false, {};
      new;
      RecoveredOk(store.rows, now);
      store.RecoverRunning(now);
    }

    /** Stores the row of a new job and registers its work before anything is awaited. */
    method Accept(call: nat, r: Request, work: Work, fingerprint: Text, executionId: Text, now: Text,
        fault: StoreFault) returns (reply: Option<Reply>)
      requires RowsOk(store.rows) && r.operationId !in store.rows
      modifies this, store
      ensures var a := Runner.Accept(old(store.rows), old(State()), call, r, work, fingerprint, executionId, now,
          fault);
              store.rows == a.rows && State() == a.memory && reply == a.reply
    {
      var started := store.Start(r, fingerprint, executionId, now, fault);
      if started.None? {
        if r.operationId in store.rows { lost := lost + {r.operationId}; }
        return Some(Failed(INTERNAL));
      }
      works := works[r.operationId := work];
      pending := pending + {r.operationId};
      waiting := waiting[call := r.operationId];
      return None;
    }

    /** A valid request whose operation may already have a row. */
    method Dispatch(call: nat, r: Request, work: Work, fingerprint: Text, executionId: Text, now: Text,
        fault: CallFault) returns (reply: Option<Reply>)
      requires RowsOk(store.rows)
      modifies this, store
      ensures var a := Runner.Dispatch(old(store.rows), old(State()), call, r, work, fingerprint, executionId, now,
          fault);
              store.rows == a.rows && State() == a.memory && reply == a.reply
    {
      if fault == OnLookup { return Some(Failed(INTERNAL)); }
      var existing := store.Find(r.operationId);
      if existing.Some? {
        var row := existing.value;
        if row.fingerprint != fingerprint { return Some(Failed(ALREADY_EXISTS)); }
        if row.state == INTERRUPTED { return Some(Failed(ABORTED)); }
        if r.operationId in pending {
          waiting := waiting[call := r.operationId];
          return None;
        }
        if row.state == COMPLETED { return Some(Replied(View(row))); }
        return Some(Failed(ABORTED));
      }
      reply := Accept(call, r, work, fingerprint, executionId, now, if fault.OnStart? then fault.fault else NoFault);
    }

    /** The executeRun handler up to its first await; no reply means the call now waits for the job. */
    method ExecuteRun(call: nat, r: Request, executionId: Text, now: Text,
        fault: CallFault) returns (reply: Option<Reply>)
      requires Valid()
      modifies this, store
      ensures Valid() && Extends(old(store.rows), store.rows)
      ensures var a := Runner.ExecuteRun(old(store.rows), old(State()), call, r, executionId, now, fault);
              store.rows == a.rows && State() == a.memory && reply == a.reply
      ensures reply.Some? ==> ReplyOk(store.rows, reply.value)
    {
      ExecuteRunKeepsOk(store.rows, State(), call, r, executionId, now, fault);
      if closing { return Some(Failed(UNAVAILABLE)); }
      var parsed := Validate(r);
      if parsed.None? { return Some(Failed(INVALID_ARGUMENT)); }
      var (behavior, payload) := parsed.value;
      reply := Dispatch(call, r, Unsettled(r, behavior, payload), Fingerprint(r.experimentRef, r.behavior, payload),
          executionId, now, fault);
    }

    /** The end of a job's body: its result is stored and its promise settles. */
    method Store(op: Text, outcome: Text, resultJson: Text, now: Text, fault: StoreFault)
      requires RowsOk(store.rows) && op in works
      modifies this, store
      ensures var a := Runner.Store(old(store.rows), old(State()), op, outcome, resultJson, now, fault);
              store.rows == a.rows && State() == a.memory
    {
      var completed := store.Complete(op, outcome, resultJson, now, fault);
      works := works[op := if completed.Some? then Resolved(completed.value) else Rejected];
      if fault == OnWrite { lost := lost + {op}; }
    }

    method FinishWork(op: Text, processedAt: Text, now: Text, fault: StoreFault)
      requires Valid() && op in works && works[op].Unsettled?
      modifies this, store
      ensures Valid() && Extends(old(store.rows), store.rows)
      ensures var a := Finish(old(store.rows), old(State()), op, processedAt, now, fault);
              store.rows == a.rows && State() == a.memory
      ensures !Unfinished(State(), op)
    {
      FinishKeepsOk(store.rows, State(), op, processedAt, now, fault);
      assert WorkOk(store.rows, op, works[op]);
      var w := works[op];
      Store(op, OutcomeText(w.behavior), Stringify(ResultOf(w.behavior, w.request.experimentRef, w.payload,
          processedAt)), now, fault);
    }

    /** The `finally` of the first caller. */
    method DropPending(op: Text)
      requires Valid() && Settled(State(), op)
      modifies this
      ensures Valid() && State() == Drop(old(State()), op)
    {
      DropKeepsOk(store.rows, State(), op);
      pending := pending - {op};
    }

    /** A waiting call whose promise has settled is answered. */
    method Respond(call: nat) returns (reply: Reply)
      requires Valid() && call in waiting && Settled(State(), waiting[call])
      modifies this
      ensures Valid() && State() == Answered(old(State()), call)
      ensures Some(reply) == Answer(old(State()), call) && ReplyOk(store.rows, reply)
    {
      AnswerKeepsOk(store.rows, State(), call);
      reply := match works[waiting[call]] case Resolved(e) => Replied(e) case _ => Failed(INTERNAL);
      waiting := Without(waiting, call);
    }

    /** getExecution reads one row and changes nothing. */
    method GetExecution(op: Text, fault: bool) returns (reply: Reply)
      ensures reply == Runner.GetExecution(store.rows, State(), op, fault)
      ensures !closing && 1 <= |op| <= 200 && !fault ==>
          reply == if op in store.rows then Replied(View(store.rows[op])) else Failed(NOT_FOUND)
      ensures closing ==> reply == Failed(UNAVAILABLE)
      ensures !closing && !(1 <= |op| <= 200) ==> reply == Failed(INVALID_ARGUMENT)
      ensures !closing && 1 <= |op| <= 200 && fault ==> reply == Failed(INTERNAL)
    {
      if closing { return Failed(UNAVAILABLE); }
      if op == [] || 200 < |op| { return Failed(INVALID_ARGUMENT); }
      if fault { return Failed(INTERNAL); }
      var row := store.Find(op);
      reply := if row.Some? then Replied(View(row.value)) else Failed(NOT_FOUND);
    }

    method BeginClose()
      requires Valid()
      modifies this
      ensures Valid() && State() == old(State()).(closing := true)
    {
      closing := true;
      assert forall q :: Unfinished(State(), q) <==> Unfinished(old(State()), q);
    }

    /** The point where close() lets the store go: only rows lost to storage faults are RUNNING. */
    method ReadyToClose() returns (ready: bool)
      requires Valid()
      ensures ready <==> Quiescent(State())
      ensures ready ==> forall op :: op in store.rows ==> (store.rows[op].state == RUNNING <==> op in lost)
    {
      ready := closing && waiting == map[] && forall op :: op in pending ==> op in works && !works[op].Unsettled?;
    }
  }
}

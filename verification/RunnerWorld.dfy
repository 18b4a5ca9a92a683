/**
 Any number of runner processes over one ledger file: module Lease decides who may open it, startup
 recovery and the runner of module Runner change its rows, and any process may crash at any step.
 */
module RunnerWorld {
  import opened Wrappers
  import opened JsonNumber
  import opened Protocol
  import opened Ledger
  import opened Runner
  import L = Lease

  /** An ExecuteRun call that reached a runner, with the fingerprint computed for it. */
  datatype Asked = Asked(request: Request, fingerprint: Option<Text>)

  /**
   `begun` lists the operations whose job body has started, `asked` the ExecuteRun calls delivered
   so far and `sent` the replies to them.
   */
  datatype World = World(
    lease: L.State,
    rows: Rows,
    runners: map<L.Owner, Memory>,
    begun: seq<Text>,
    asked: map<nat, Asked>,
    sent: map<nat, Reply>)

  datatype Action =
    | Disk(action: L.Action, now: Text)
    | Execute(owner: L.Owner, call: nat, request: Request, executionId: Text, now: Text, callFault: CallFault)
    | FinishWork(owner: L.Owner, op: Text, processedAt: Text, now: Text, fault: StoreFault)
    | DropPending(owner: L.Owner, op: Text)
    | Respond(owner: L.Owner, call: nat)
    | BeginClose(owner: L.Owner)

  predicate IsOpen(s: L.State, o: L.Owner) {
    o in s.agents && s.agents[o].pc == L.Open
  }

  /** The step with which an opener runs the startup recovery update. */
  predicate Recovers(s: L.State, a: L.Action) {
    a.Step? && L.Alive(s, a.owner) && s.agents[a.owner].pc == L.Recover
  }

  /** Clocks and identifier generators produce well-formed text. */
  predicate WellFormed(a: Action) {
    match a
    case Execute(_, _, _, executionId, now, _) => IsUuid(executionId) && IsInstant(now)
    case FinishWork(_, _, processedAt, now, _) => IsInstant(processedAt)
    case _ => true
  }

  function Next(w: World, a: Action): World {
    if !WellFormed(a) then w
    else match a
      case Disk(action, now) => if action.Close? && !MayClose(w, action.owner) then w else NextDisk(w, action, now)
      case Execute(o, call, r, executionId, now, fault) =>
        if o !in w.runners || call in w.asked then w
        else Applied(w, o, call, r, ExecuteRun(w.rows, w.runners[o], call, r, executionId, now, fault))
      case FinishWork(o, op, processedAt, now, fault) =>
        if o !in w.runners then w else Stored(w, o, Finish(w.rows, w.runners[o], op, processedAt, now, fault))
      case DropPending(o, op) =>
        if o in w.runners then w.(runners := w.runners[o := Drop(w.runners[o], op)]) else w
      case Respond(o, call) =>
        if o !in w.runners || Answer(w.runners[o], call).None? then w
        else w.(runners := w.runners[o := Answered(w.runners[o], call)],
            sent := w.sent[call := Answer(w.runners[o], call).value])
      case BeginClose(o) =>
        if o in w.runners then w.(runners := w.runners[o := w.runners[o].(closing := true)]) else w
  }

  /** The store is closed only once every accepted job has settled and every call is answered. */
  predicate MayClose(w: World, o: L.Owner) {
    o in w.runners && Quiescent(w.runners[o])
  }

  /** A step of the files and processes: it may recover the rows, open a runner, or end some. */
  function NextDisk(w: World, a: L.Action, now: Text): World {
    var s := L.Next(w.lease, a);
    w.(lease := s,
       rows := if Recovers(w.lease, a) then Recovered(w.rows, now) else w.rows,
       runners := map o | o in s.agents && IsOpen(s, o) :: if o in w.runners then w.runners[o] else FRESH)
  }

  function Applied(w: World, o: L.Owner, call: nat, r: Request, after: After): World
    requires o in w.runners
  {
    w.(rows := after.rows,
       runners := w.runners[o := after.memory],
       begun := if after.began then w.begun + [r.operationId] else w.begun,
       asked := w.asked[call := Asked(r, RequestFingerprint(r))],
       sent := if after.reply.Some? then w.sent[call := after.reply.value] else w.sent)
  }

  function Stored(w: World, o: L.Owner, after: After): World
    requires o in w.runners
  {
    w.(rows := after.rows, runners := w.runners[o := after.memory])
  }

  function Run(w: World, actions: seq<Action>): World
    decreases |actions|
  {
    if actions == [] then w else Next(Run(w, actions[..|actions| - 1]), actions[|actions| - 1])
  }

  /** Any ledger may be there from earlier; nobody has it open. */
  ghost predicate Init(w: World) {
    && L.Init(w.lease) && RowsOk(w.rows) && RowsFaithful(w.rows)
    && w.runners == map[] && w.begun == [] && w.asked == map[] && w.sent == map[]
  }

  // ----- the inductive invariant

  ghost predicate NoRepeats(ops: seq<Text>) {
    forall i, j :: 0 <= i < j < |ops| ==> ops[i] != ops[j]
  }

  /** No job body has started twice, and none without a row. */
  ghost predicate BegunOk(begun: seq<Text>, rows: Rows) {
    NoRepeats(begun) && forall i :: 0 <= i < |begun| ==> begun[i] in rows
  }

  /** The operation is the one call `c` asked for, accepted under the call's own fingerprint. */
  ghost predicate Mine(w: World, c: nat, op: Text) {
    c in w.asked && w.asked[c].request.operationId == op && JobOf(w.rows, op, w.asked[c].fingerprint)
  }

  ghost predicate Answers(w: World, c: nat, reply: Reply) {
    c in w.asked && ReplyOk(w.rows, reply) && (reply.Replied? ==> Mine(w, c, reply.execution.operationId))
  }

  ghost predicate CallsOk(w: World) {
    && (forall c :: c in w.sent ==> Answers(w, c, w.sent[c]))
    && (forall o, c :: o in w.runners && c in w.runners[o].waiting ==> Mine(w, c, w.runners[o].waiting[c]))
  }

  ghost predicate Inv(w: World) {
    && L.Inv(w.lease)
    && RowsOk(w.rows)
    && (forall o :: o in w.runners <==> IsOpen(w.lease, o))
    && (forall o :: o in w.runners ==> MemoryOk(w.rows, w.runners[o]))
    && BegunOk(w.begun, w.rows)
    && CallsOk(w)
  }

  /** The lease gives at most one open runner. */
  lemma OneRunner(w: World, o: L.Owner, p: L.Owner)
    requires Inv(w) && o in w.runners && p in w.lease.agents && L.Holding(w.lease.agents[p].pc)
    ensures o == p
  {
    assert IsOpen(w.lease, o);
    assert L.AgentInv(w.lease, o) && L.AgentInv(w.lease, p);
  }

  lemma NobodyRunsDuringRecovery(w: World, a: L.Action)
    requires Inv(w) && Recovers(w.lease, a)
    ensures w.runners == map[]
  {
    forall o | o in w.runners ensures false {
      assert IsOpen(w.lease, o);
      OneRunner(w, o, a.owner);
    }
  }

  lemma ExtendsKeepsCalls(before: World, after: World)
    requires CallsOk(before) && Extends(before.rows, after.rows) && after.asked == before.asked
        && after.sent == before.sent
    requires forall o, c :: o in after.runners && c in after.runners[o].waiting ==>
               o in before.runners && c in before.runners[o].waiting
                   && after.runners[o].waiting[c] == before.runners[o].waiting[c]
    ensures CallsOk(after)
  {
    forall c | c in after.sent ensures Answers(after, c, after.sent[c]) {
      assert Answers(before, c, before.sent[c]);
    }
    forall o, c | o in after.runners && c in after.runners[o].waiting
        ensures Mine(after, c, after.runners[o].waiting[c]) {
      assert Mine(before, c, before.runners[o].waiting[c]);
    }
  }

  lemma AskingKeepsCalls(w: World, o: L.Owner, call: nat, asked: Asked, m: Memory)
    requires CallsOk(w) && o in w.runners && call !in w.asked
    requires m.waiting == w.runners[o].waiting
             || (m.waiting == w.runners[o].waiting[call := asked.request.operationId]
                 && JobOf(w.rows, asked.request.operationId, asked.fingerprint))
    ensures CallsOk(w.(runners := w.runners[o := m], asked := w.asked[call := asked]))
  {
    var after := w.(runners := w.runners[o := m], asked := w.asked[call := asked]);
    forall c | c in after.sent ensures Answers(after, c, after.sent[c]) {
      assert Answers(w, c, w.sent[c]);
    }
    forall p, c | p in after.runners && c in after.runners[p].waiting
        ensures Mine(after, c, after.runners[p].waiting[c]) {
      if p in w.runners && c in w.runners[p].waiting && c != call { assert Mine(w, c, w.runners[p].waiting[c]); }
    }
  }

  lemma SendingKeepsCalls(w: World, call: nat, reply: Reply)
    requires CallsOk(w) && Answers(w, call, reply)
    ensures CallsOk(w.(sent := w.sent[call := reply]))
  {
    var after := w.(sent := w.sent[call := reply]);
    forall c | c in after.sent ensures Answers(after, c, after.sent[c]) {
      if c != call { assert Answers(w, c, w.sent[c]); }
    }
    forall p, c | p in after.runners && c in after.runners[p].waiting
        ensures Mine(after, c, after.runners[p].waiting[c]) {
      assert Mine(w, c, w.runners[p].waiting[c]);
    }
  }

  lemma FreshMemoryOk(rows: Rows, now: Text)
    requires RowsOk(rows)
    ensures MemoryOk(Recovered(rows, now), FRESH)
  {
    RecoveredOk(rows, now);
  }

  lemma DiskKeepsMemory(w: World, a: L.Action, now: Text)
    requires Inv(w)
    ensures var w' := NextDisk(w, a, now);
            && RowsOk(w'.rows) && Extends(w.rows, w'.rows)
            && forall o :: o in w'.runners ==> MemoryOk(w'.rows, w'.runners[o])
  {
    var w' := NextDisk(w, a, now);
    RecoveredOk(w.rows, now);
    FreshMemoryOk(w.rows, now);
    if Recovers(w.lease, a) {
      NobodyRunsDuringRecovery(w, a);
    }
    hide L.Inv, L.Next, MemoryOk, RowsOk, Recovered, Extends, Recovers, CallsOk, BegunOk;
    forall o | o in w'.runners ensures MemoryOk(w'.rows, w'.runners[o]) {
      if o !in w.runners { NewlyOpenIsRecovery(w.lease, a, o); }
    }
  }

  lemma DiskKeepsInv(w: World, a: L.Action, now: Text)
    requires Inv(w)
    ensures Inv(NextDisk(w, a, now))
  {
    L.NextKeepsInv(w.lease, a);
    DiskKeepsMemory(w, a, now);
    ExtendsKeepsCalls(w, NextDisk(w, a, now));
    BegunStays(w.begun, w.rows, NextDisk(w, a, now).rows);
  }

  /** A ledger becomes open only by the step that runs the recovery update. */
  lemma NewlyOpenIsRecovery(s: L.State, a: L.Action, o: L.Owner)
    requires IsOpen(L.Next(s, a), o) && !IsOpen(s, o)
    ensures Recovers(s, a) && a.owner == o
  {
  }

  lemma NoRepeatsAppend(ops: seq<Text>, op: Text)
    requires NoRepeats(ops) && op !in ops
    ensures NoRepeats(ops + [op])
  {
  }

  lemma ExecuteKeepsCalls(w: World, o: L.Owner, call: nat, r: Request, after: After)
    requires CallsOk(w) && o in w.runners && call !in w.asked && Extends(w.rows, after.rows)
    requires after.reply.Some? ==> ReplyOk(after.rows, after.reply.value)
    requires after.reply.Some? && after.reply.value.Replied? ==>
               after.reply.value.execution.operationId == r.operationId
                   && JobOf(after.rows, r.operationId, RequestFingerprint(r))
    requires after.memory.waiting == w.runners[o].waiting
             || (after.reply.None? && after.memory.waiting == w.runners[o].waiting[call := r.operationId]
                 && JobOf(after.rows, r.operationId, RequestFingerprint(r)))
    ensures CallsOk(Applied(w, o, call, r, after))
  {
    var grown := w.(rows := after.rows, begun := Applied(w, o, call, r, after).begun);
    ExtendsKeepsCalls(w, grown);
    var asked := Asked(r, RequestFingerprint(r));
    AskingKeepsCalls(grown, o, call, asked, after.memory);
    if after.reply.Some? {
      SendingKeepsCalls(grown.(runners := grown.runners[o := after.memory], asked := grown.asked[call := asked]), call,
          after.reply.value);
    }
  }

  lemma ExecuteKeepsInv(w: World, o: L.Owner, call: nat, r: Request, executionId: Text, now: Text, fault: CallFault)
    requires Inv(w) && o in w.runners && call !in w.asked
    ensures var after := ExecuteRun(w.rows, w.runners[o], call, r, executionId, now, fault);
            Inv(Applied(w, o, call, r, after)) && Extends(w.rows, after.rows)
  {
    var after := ExecuteRun(w.rows, w.runners[o], call, r, executionId, now, fault);
    ExecuteRunKeepsOk(w.rows, w.runners[o], call, r, executionId, now, fault);
    ExecuteRunJob(w.rows, w.runners[o], call, r, executionId, now, fault);
    ExecuteKeepsCalls(w, o, call, r, after);
    AppliedKeepsInv(w, o, call, r, after);
  }

  lemma RowsOfMemory(rows: Rows, m: Memory)
    requires MemoryOk(rows, m)
    ensures RowsOk(rows)
  {
  }

  lemma OnlyRunner(w: World, o: L.Owner)
    requires Inv(w) && o in w.runners
    ensures w.runners == map[o := w.runners[o]]
  {
    hide L.Inv, MemoryOk, CallsOk, RowsOk, BegunOk;
    forall p | p in w.runners ensures p == o {
      assert IsOpen(w.lease, p);
      OneRunner(w, o, p);
    }
  }

  lemma BegunStays(begun: seq<Text>, rows: Rows, later: Rows)
    requires BegunOk(begun, rows) && Extends(rows, later)
    ensures BegunOk(begun, later)
  {
    hide Advances;
  }

  lemma BegunGrows(begun: seq<Text>, rows: Rows, op: Text, later: Rows)
    requires BegunOk(begun, rows) && Extends(rows, later) && op !in rows && op in later
    ensures BegunOk(begun + [op], later)
  {
    hide Advances;
    NoRepeatsAppend(begun, op);
  }

  lemma AppliedKeepsInv(w: World, o: L.Owner, call: nat, r: Request, after: After)
    requires Inv(w) && o in w.runners && MemoryOk(after.rows, after.memory) && Extends(w.rows, after.rows)
    requires CallsOk(Applied(w, o, call, r, after))
    requires after.began ==> r.operationId !in w.rows && r.operationId in after.rows
    ensures Inv(Applied(w, o, call, r, after))
  {
    hide L.Inv, MemoryOk, CallsOk, RowsOk, RequestFingerprint, BegunOk, IsOpen, Extends;
    RowsOfMemory(after.rows, after.memory);
    OnlyRunner(w, o);
    BegunStays(w.begun, w.rows, after.rows);
    if after.began { BegunGrows(w.begun, w.rows, r.operationId, after.rows); }
  }

  /** A step inside one runner that asks nothing and sends nothing. */
  lemma InternalKeepsInv(w: World, o: L.Owner, rows': Rows, m': Memory)
    requires Inv(w) && o in w.runners && MemoryOk(rows', m') && Extends(w.rows, rows')
    requires m'.waiting == w.runners[o].waiting
    ensures Inv(w.(rows := rows', runners := w.runners[o := m']))
  {
    hide L.Inv, MemoryOk, CallsOk, RowsOk, BegunOk, IsOpen, Extends;
    RowsOfMemory(rows', m');
    OnlyRunner(w, o);
    BegunStays(w.begun, w.rows, rows');
    ExtendsKeepsCalls(w, w.(rows := rows', runners := w.runners[o := m']));
  }

  /** Each kind of step keeps the invariant and only ever adds rows or advances them. */
  lemma NextExecute(w: World, a: Action)
    requires Inv(w) && a.Execute?
    ensures Inv(Next(w, a)) && Extends(w.rows, Next(w, a).rows)
  {
    if WellFormed(a) && a.owner in w.runners && a.call !in w.asked {
      ExecuteKeepsInv(w, a.owner, a.call, a.request, a.executionId, a.now, a.callFault);
    }
  }

  lemma NextFinish(w: World, a: Action)
    requires Inv(w) && a.FinishWork?
    ensures Inv(Next(w, a)) && Extends(w.rows, Next(w, a).rows)
  {
    if WellFormed(a) && a.owner in w.runners {
      FinishKeepsOk(w.rows, w.runners[a.owner], a.op, a.processedAt, a.now, a.fault);
      StoredKeepsInv(w, a.owner, Finish(w.rows, w.runners[a.owner], a.op, a.processedAt, a.now, a.fault));
    }
  }

  lemma StoredKeepsInv(w: World, o: L.Owner, after: After)
    requires Inv(w) && o in w.runners
    requires MemoryOk(after.rows, after.memory) && Extends(w.rows, after.rows)
        && after.memory.waiting == w.runners[o].waiting
    ensures Inv(Stored(w, o, after))
  {
    InternalKeepsInv(w, o, after.rows, after.memory);
  }

  lemma RespondKeepsCalls(w: World, o: L.Owner, call: nat)
    requires CallsOk(w) && o in w.runners && MemoryOk(w.rows, w.runners[o]) && Answer(w.runners[o], call).Some?
    ensures CallsOk(w.(runners := w.runners[o := Answered(w.runners[o], call)],
        sent := w.sent[call := Answer(w.runners[o], call).value]))
  {
    var m := w.runners[o];
    AnswerKeepsOk(w.rows, m, call);
    AnsweredWaiting(m, call);
    assert Mine(w, call, m.waiting[call]);
    hide Mine, Answers, Answered, Answer, MemoryOk;
    var quiet := w.(runners := w.runners[o := Answered(m, call)]);
    ExtendsKeepsCalls(w, quiet);
    SendingKeepsCalls(quiet, call, Answer(m, call).value);
  }

  lemma NextRespond(w: World, a: Action)
    requires Inv(w) && a.Respond?
    ensures Inv(Next(w, a)) && Next(w, a).rows == w.rows
  {
    hide L.Inv, MemoryOk, RowsOk, BegunOk, CallsOk, Answered, Answer, IsOpen;
    if a.owner in w.runners && Answer(w.runners[a.owner], a.call).Some? {
      AnswerKeepsOk(w.rows, w.runners[a.owner], a.call);
      OnlyRunner(w, a.owner);
      RespondKeepsCalls(w, a.owner, a.call);
    }
  }

  lemma NextQuiet(w: World, a: Action)
    requires Inv(w) && (a.DropPending? || a.BeginClose?)
    ensures Inv(Next(w, a)) && Next(w, a).rows == w.rows
  {
    hide Inv, MemoryOk;
    if a.owner in w.runners {
      var m := w.runners[a.owner];
      MemoryOfRunner(w, a.owner);
      var m' := if a.DropPending? then Drop(m, a.op) else m.(closing := true);
      if a.DropPending? { DropKeepsOk(w.rows, m, a.op); } else { ClosingKeepsOk(w.rows, m); }
      InternalKeepsInv(w, a.owner, w.rows, m');
    }
  }

  lemma MemoryOfRunner(w: World, o: L.Owner)
    requires Inv(w) && o in w.runners
    ensures MemoryOk(w.rows, w.runners[o]) && Extends(w.rows, w.rows)
  {
    hide L.Inv, MemoryOk, RowsOk, BegunOk, CallsOk, IsOpen;
  }

  lemma ClosingKeepsOk(rows: Rows, m: Memory)
    requires MemoryOk(rows, m)
    ensures MemoryOk(rows, m.(closing := true))
  {
    assert forall q :: Unfinished(m.(closing := true), q) <==> Unfinished(m, q);
  }

  lemma NextKeepsInv(w: World, a: Action)
    requires Inv(w)
    ensures Inv(Next(w, a)) && Extends(w.rows, Next(w, a).rows)
  {
    match a
    case Disk(action, now) =>
      DiskKeepsInv(w, action, now);
      DiskKeepsMemory(w, action, now);
    case Execute(_, _, _, _, _, _) => NextExecute(w, a);
    case FinishWork(_, _, _, _, _) => NextFinish(w, a);
    case Respond(_, _) => NextRespond(w, a);
    case _ => NextQuiet(w, a);
  }

  lemma InitInv(w: World)
    requires Init(w)
    ensures Inv(w)
  {
  }

  lemma {:induction false} RunKeepsInv(w: World, actions: seq<Action>)
    requires Init(w)
    ensures Inv(Run(w, actions))
    decreases |actions|
  {
    hide Init, Inv, Next;
    if actions == [] {
      InitInv(w);
    } else {
      RunKeepsInv(w, actions[..|actions| - 1]);
      NextKeepsInv(Run(w, actions[..|actions| - 1]), actions[|actions| - 1]);
    }
  }

  // ----- whole-run properties

  /** Across retries, crashes and restarts, a job's body starts at most once per operation id. */
  lemma WorkBeginsAtMostOnce(w: World, actions: seq<Action>)
    requires Init(w)
    ensures NoRepeats(Run(w, actions).begun)
  {
    RunKeepsInv(w, actions);
  }

  /** Startup recovery marks a row INTERRUPTED only when no live process has any work for it. */
  lemma RecoveryInterruptsOnlyDeadWork(w: World, actions: seq<Action>, a: L.Action, now: Text, op: Text, o: L.Owner)
    requires Init(w)
    ensures var (t, u) := (Run(w, actions), Next(Run(w, actions), Disk(a, now)));
            op in t.rows && t.rows[op].state != INTERRUPTED && op in u.rows && u.rows[op].state == INTERRUPTED
            ==> !(o in t.runners && Unfinished(t.runners[o], op))
  {
    RunKeepsInv(w, actions);
    var t := Run(w, actions);
    if Recovers(t.lease, a) { NobodyRunsDuringRecovery(t, a); }
  }

  /** Ledger rows are write-once over every run. */
  lemma {:induction false} RowsWriteOnce(w: World, before: seq<Action>, after: seq<Action>)
    requires Init(w)
    ensures Extends(Run(w, before).rows, Run(w, before + after).rows)
    decreases |after|
  {
    hide Init, Inv, Next;
    if after == [] {
      assert before + after == before;
    } else {
      var most := before + after[..|after| - 1];
      assert (before + after)[..|before + after| - 1] == most;
      RowsWriteOnce(w, before, after[..|after| - 1]);
      RunKeepsInv(w, most);
      NextKeepsInv(Run(w, most), after[|after| - 1]);
      ExtendsTransitive(Run(w, before).rows, Run(w, most).rows, Run(w, before + after).rows);
    }
  }

  /** All successful ExecuteRun replies for one operation id, over any run, are the same COMPLETED record. */
  lemma RepliesAgree(w: World, actions: seq<Action>, c: nat, d: nat)
    requires Init(w)
    ensures var t := Run(w, actions);
            c in t.sent && d in t.sent && t.sent[c].Replied? && t.sent[d].Replied?
            && t.sent[c].execution.operationId == t.sent[d].execution.operationId
            ==> t.sent[c] == t.sent[d] && t.sent[c].execution.state == StateText(COMPLETED)
  {
    hide Run, Init, L.Inv, BegunOk, MemoryOk, RowsOk;
    RunKeepsInv(w, actions);
    var t := Run(w, actions);
    if c in t.sent && d in t.sent { assert Answers(t, c, t.sent[c]) && Answers(t, d, t.sent[d]); }
  }

  /** Once an operation is INTERRUPTED no call for it was or ever will be answered with an execution. */
  lemma InterruptedNeverReplies(w: World, before: seq<Action>, after: seq<Action>, c: nat)
    requires Init(w)
    ensures var (s, t) := (Run(w, before), Run(w, before + after));
            c in t.sent && c in t.asked && t.asked[c].request.operationId in s.rows
                && s.rows[t.asked[c].request.operationId].state == INTERRUPTED
            ==> t.sent[c].Failed?
  {
    RunKeepsInv(w, before + after);
    RowsWriteOnce(w, before, after);
    var (s, t) := (Run(w, before), Run(w, before + after));
    hide Run, Init, Next, L.Inv, BegunOk, MemoryOk, RowsOk, RequestFingerprint;
    if c in t.sent && c in t.asked && t.asked[c].request.operationId in s.rows {
      assert Advances(s.rows[t.asked[c].request.operationId], t.rows[t.asked[c].request.operationId]);
      assert Answers(t, c, t.sent[c]);
    }
  }

  // ----- faithful rows

  lemma NextKeepsFaithful(w: World, a: Action)
    requires Inv(w) && RowsFaithful(w.rows)
    ensures RowsFaithful(Next(w, a).rows)
  {
    hide L.Inv, L.Next, MemoryOk, RowsOk, RowsFaithful, CallsOk, BegunOk, ExecuteRun, Finish, Recovers, Recovered,
      Answered, RequestFingerprint;
    if WellFormed(a) {
      match a
      case Disk(_, now) => RecoveredFaithful(w.rows, now);
      case Execute(o, call, r, executionId, now, fault) =>
        if o in w.runners { ExecuteRunFaithful(w.rows, w.runners[o], call, r, executionId, now, fault); }
      case FinishWork(o, op, processedAt, now, fault) =>
        if o in w.runners { FinishFaithful(w.rows, w.runners[o], op, processedAt, now, fault); }
      case _ =>
    }
  }

  lemma {:induction false} RunKeepsFaithful(w: World, actions: seq<Action>)
    requires Init(w)
    ensures RowsFaithful(Run(w, actions).rows)
    decreases |actions|
  {
    if actions != [] {
      RunKeepsInv(w, actions[..|actions| - 1]);
      RunKeepsFaithful(w, actions[..|actions| - 1]);
      NextKeepsFaithful(Run(w, actions[..|actions| - 1]), actions[|actions| - 1]);
    }
  }

  // ----- graceful shutdown

  ghost predicate NoneRunning(rows: Rows) {
    forall op :: op in rows ==> rows[op].state != RUNNING
  }

  /** When the store may be closed, the RUNNING rows are exactly those a storage fault left behind. */
  lemma CloseLeavesOnlyLost(w: World, actions: seq<Action>, o: L.Owner, op: Text)
    requires Init(w)
    ensures var t := Run(w, actions);
            MayClose(t, o) && op in t.rows ==> (t.rows[op].state == RUNNING <==> op in t.runners[o].lost)
  {
    hide Run, Init, L.Inv, CallsOk, BegunOk, RowsOk, WorkOk;
    RunKeepsInv(w, actions);
    var t := Run(w, actions);
    if MayClose(t, o) { assert MemoryOk(t.rows, t.runners[o]); }
  }

  predicate Faultless(a: Action) {
    (a.Execute? ==> a.callFault == NoCallFault) && (a.FinishWork? ==> a.fault == NoFault)
  }

  ghost predicate NothingLost(w: World) {
    forall o :: o in w.runners ==> w.runners[o].lost == {}
  }

  lemma {:induction false} FaultlessLosesNothing(w: World, actions: seq<Action>)
    requires Init(w) && forall i :: 0 <= i < |actions| ==> Faultless(actions[i])
    ensures NothingLost(Run(w, actions))
    decreases |actions|
  {
    if actions != [] {
      var most := actions[..|actions| - 1];
      FaultlessLosesNothing(w, most);
      RunKeepsInv(w, most);
      hide Init, Inv, Next;
      FaultlessStepLosesNothing(Run(w, most), actions[|actions| - 1]);
    }
  }

  lemma AnswerKeepsLost(m: Memory, call: nat)
    ensures Answered(m, call).lost == m.lost
  {
  }

  lemma FaultlessStepLosesNothing(w: World, a: Action)
    requires Inv(w) && NothingLost(w) && Faultless(a)
    ensures NothingLost(Next(w, a))
  {
    hide L.Inv, L.Next, MemoryOk, RowsOk, CallsOk, BegunOk, Extends, ExecuteRun, Finish, WellFormed, Recovers,
      Answered, RequestFingerprint;
    if WellFormed(a) && (a.Disk? || a.owner in w.runners) {
      match a
      case Execute(o, call, r, executionId, now, fault) =>
        ExecuteRunKeepsOk(w.rows, w.runners[o], call, r, executionId, now, fault);
      case FinishWork(o, op, processedAt, now, fault) =>
        FinishKeepsOk(w.rows, w.runners[o], op, processedAt, now, fault);
      case Respond(o, call) => AnswerKeepsLost(w.runners[o], call);
      case _ =>
    }
  }

  /** Every state the actions pass through has no open runner. */
  ghost predicate Idle(w: World, actions: seq<Action>) {
    forall k :: 0 <= k <= |actions| ==> Run(w, actions[..k]).runners == map[]
  }

  lemma IdleStepKeepsRows(w: World, a: Action)
    requires w.runners == map[] && NoneRunning(w.rows)
    ensures Next(w, a).rows == w.rows
  {
  }

  lemma {:induction false} IdleKeepsRows(w: World, actions: seq<Action>)
    requires Idle(w, actions) && NoneRunning(w.rows)
    ensures Run(w, actions).rows == w.rows
    decreases |actions|
  {
    if actions != [] {
      var most := actions[..|actions| - 1];
      forall k | 0 <= k <= |most| ensures Run(w, most[..k]).runners == map[] {
        assert most[..k] == actions[..k];
      }
      IdleKeepsRows(w, most);
      assert actions[..|actions| - 1] == most;
      IdleStepKeepsRows(Run(w, most), actions[|actions| - 1]);
    }
  }

  /**
   Absent storage faults a graceful close leaves no RUNNING row, and nothing changes the ledger until
   the next runner opens it; that runner's recovery, the step `next`, interrupts nothing.
   */
  lemma GracefulRestart(w: World, actions: seq<Action>, o: L.Owner, idle: seq<Action>, next: Action)
    requires Init(w) && forall i :: 0 <= i < |actions| ==> Faultless(actions[i])
    requires MayClose(Run(w, actions), o)
    requires Idle(Next(Run(w, actions), Disk(L.Close(o), [])), idle)
    ensures var closed := Next(Run(w, actions), Disk(L.Close(o), []));
            && closed.rows == Run(w, actions).rows && NoneRunning(closed.rows)
            && Next(Run(closed, idle), next).rows == closed.rows
  {
    var t := Run(w, actions);
    var closed := Next(t, Disk(L.Close(o), []));
    FaultlessLosesNothing(w, actions);
    forall op | op in t.rows ensures t.rows[op].state != RUNNING {
      CloseLeavesOnlyLost(w, actions, o, op);
    }
    IdleKeepsRows(closed, idle);
    assert idle[..|idle|] == idle;
    IdleStepKeepsRows(Run(closed, idle), next);
  }
}

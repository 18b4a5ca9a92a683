/**
 The coordinator of module Coordinator, a network that loses, delays and reorders, and the runner
 processes of module RunnerWorld. A request sent to the runner may arrive at any later time, even
 after its caller gave up; an answer may be lost; a deadline may pass at any moment.
 */
module System {
  import opened Wrappers
  import opened JsonNumber
  import opened JsonString
  import opened Json
  import opened CanonicalJson
  import opened Identity
  import opened Protocol
  import opened Ledger
  import opened Runner
  import A = RunnerAnswers
  import W = RunnerWorld
  import C = Coordinator
  import L = Lease

  /** `wire` holds every attempt whose ExecuteRun request was ever sent, by call. */
  datatype System = System(desk: C.Desk, world: W.World, wire: map<nat, C.Attempt>)

  datatype Action =
    | Create(experiment: C.Experiment)
    | Delete(experimentId: nat)
    | Begin(call: nat, experimentId: nat, key: Option<Text>, correlationId: Text)
    | Deliver(owner: L.Owner, call: nat, executionId: Text, now: Text, callFault: CallFault)
    | Receive(call: nat)
    | GiveUp(call: nat, code: Code)
    | Abandon(call: nat)
    | Inside(action: W.Action)

  function Next(s: System, a: Action): System {
    match a
    case Create(e) => s.(desk := C.Next(s.desk, C.Create(e)))
    case Delete(id) => s.(desk := C.Next(s.desk, C.Delete(id)))
    case Begin(call, id, key, correlationId) =>
      if call in s.wire then s else Sent(s, C.Next(s.desk, C.Begin(call, id, key, correlationId)), call)
    case Deliver(o, call, executionId, now, fault) =>
      if call in s.wire then s.(world := W.Next(s.world, W.Execute(o, call, s.wire[call].request, executionId, now,
          fault)))
          else s
    case Receive(call) =>
      if call in s.world.sent then s.(desk := C.Next(s.desk, C.Observe(call, s.world.sent[call]))) else s
    case GiveUp(call, code) => s.(desk := C.Next(s.desk, C.Observe(call, Failed(code))))
    case Abandon(call) => s.(desk := C.Next(s.desk, C.Abandon(call)))
    case Inside(action) => if action.Execute? then s else s.(world := W.Next(s.world, action))
  }

  function Sent(s: System, desk: C.Desk, call: nat): System {
    System(desk, s.world, if call in desk.inFlight then s.wire[call := desk.inFlight[call]] else s.wire)
  }

  function Run(s: System, actions: seq<Action>): System
    decreases |actions|
  {
    if actions == [] then s else Next(Run(s, actions[..|actions| - 1]), actions[|actions| - 1])
  }

  ghost predicate Init(s: System) {
    C.Init(s.desk) && W.Init(s.world) && s.wire == map[]
  }

  // ----- the inductive invariant

  /** What an attempt is about for the runner: its key, or its own exchange when it has none. */
  function Subject(a: C.Attempt): Text {
    if a.key.Some? then a.key.value else a.request.correlationId
  }

  /** A request that was sent names its experiment and its subject, and carries its payload. */
  ghost predicate SentOk(namespace: Text, a: C.Attempt) {
    && a.request.operationId == OperationId(namespace, a.experimentId, Subject(a))
    && a.request.experimentRef == ExperimentRef(namespace, a.experimentId)
    && Ok(a.payload) && a.payload.Obj? && a.request.payloadJson == Stringify(a.payload)
    && ParseBehavior(a.request.behavior).Some?
  }

  /** How a gRPC error is recorded. */
  ghost predicate FailureOk(code: Code, o: Outcome) {
    (o == Timeout <==> code == DEADLINE_EXCEEDED) && (o == Unreachable <==> code == UNAVAILABLE)
    && (o == DownstreamError <==> code != DEADLINE_EXCEEDED && code != UNAVAILABLE)
  }

  /** What a receipt says about the runner is what the ledger says, now and from then on. */
  ghost predicate ReceiptOk(s: System, r: C.Receipt) {
    && r.experimentId in s.desk.experiments
    && (r.key.Some? ==> r.operationId == OperationId(s.desk.namespace, r.experimentId, r.key.value))
    && (r.code.Some? <==> r.execution.None?)
    && (r.code.Some? ==> FailureOk(r.code.value, r.outcome))
    && (r.execution.Some? ==>
          && r.execution.value.operationId == r.operationId
          && ReplyOk(s.world.rows, Replied(r.execution.value))
          && r.outcome == Expected(s.desk.experiments[r.experimentId].behavior)
          && r.outcome == Classify(r.execution.value, r.operationId, ExperimentRef(s.desk.namespace, r.experimentId),
                                   s.desk.experiments[r.experimentId].payload))
  }

  /** A request in flight was sent as it stands, for an experiment that has not changed since. */
  ghost predicate AttemptOk(s: System, c: nat)
    requires c in s.desk.inFlight
  {
    var a := s.desk.inFlight[c];
    && c in s.wire && s.wire[c] == a && SentOk(s.desk.namespace, a)
    && a.experimentId < s.desk.nextExperiment
    && (a.experimentId in s.desk.experiments ==>
        a.request.behavior == BehaviorText(s.desk.experiments[a.experimentId].behavior)
        && a.payload == s.desk.experiments[a.experimentId].payload)
  }

  ghost predicate WireOk(namespace: Text, wire: map<nat, C.Attempt>) {
    forall c :: c in wire ==> SentOk(namespace, wire[c])
  }

  ghost predicate AskedOk(s: System, c: nat)
    requires c in s.world.asked
  {
    c in s.wire && s.world.asked[c] == W.Asked(s.wire[c].request, RequestFingerprint(s.wire[c].request))
  }

  ghost predicate ExperimentsOk(d: C.Desk) {
    forall e :: e in d.experiments ==>
        e < d.nextExperiment && d.experiments[e].payload.Obj? && Ok(d.experiments[e].payload)
  }

  ghost predicate Inv(s: System) {
    && W.Inv(s.world) && RowsFaithful(s.world.rows)
    && ExperimentsOk(s.desk) && WireOk(s.desk.namespace, s.wire)
    && (forall c :: c in s.world.asked ==> AskedOk(s, c))
    && (forall c :: c in s.desk.inFlight ==> AttemptOk(s, c))
    && (forall i :: 0 <= i < |s.desk.receipts| ==> ReceiptOk(s, s.desk.receipts[i]))
  }

  // ----- an answered request is classified by what its experiment does

  lemma RowAnswers(row: Row, r: Request, payload: Json, b: Behavior)
    requires Faithful(row) && row.state == COMPLETED
    requires Ok(payload) && r.payloadJson == Stringify(payload) && r.behavior == BehaviorText(b)
    requires RequestFingerprint(r) == Some(row.fingerprint)
    ensures row.experimentRef == r.experimentRef
    ensures Classify(View(row), row.operationId, row.experimentRef, payload) == Expected(b)
  {
    ParseStringify(payload);
    var echo := Parse(row.payloadJson).value;
    FingerprintExact(row.experimentRef, row.behavior, echo, r.experimentRef, r.behavior, payload);
    BehaviorReadsBack(b);
    assert Earned(row, b, echo);
    var t :| IsInstant(t) && row.resultJson == Stringify(ResultOf(b, row.experimentRef, echo, t));
    CompletedJobClassified(View(row), b, echo, payload, t);
  }

  lemma AnswerClassified(s: System, c: nat, b: Behavior)
    requires Inv(s) && c in s.desk.inFlight && c in s.world.sent && s.world.sent[c].Replied?
    requires s.desk.inFlight[c].request.behavior == BehaviorText(b)
    ensures s.world.sent[c].execution.operationId == s.desk.inFlight[c].request.operationId
    ensures ReplyOk(s.world.rows, s.world.sent[c])
    ensures C.OutcomeOf(s.desk.inFlight[c], s.world.sent[c]) == Expected(b)
  {
    var (a, e) := (s.desk.inFlight[c], s.world.sent[c].execution);
    assert W.Answers(s.world, c, s.world.sent[c]) && AttemptOk(s, c);
    assert AskedOk(s, c);
    var row := s.world.rows[e.operationId];
    assert Faithful(row);
    RowAnswers(row, a.request, a.payload, b);
  }

  // ----- every step keeps the invariant

  lemma WorldMoves(s: System, w: W.World)
    requires Inv(s) && W.Inv(w) && RowsFaithful(w.rows) && Extends(s.world.rows, w.rows)
    requires forall c :: c in w.asked ==> AskedOk(s.(world := w), c)
    ensures Inv(s.(world := w))
  {
    hide W.Inv, RowsFaithful, Extends, AskedOk, ReceiptOk, AttemptOk, ExperimentsOk;
    var t := s.(world := w);
    forall i | 0 <= i < |t.desk.receipts| ensures ReceiptOk(t, t.desk.receipts[i]) {
      assert ReceiptOk(s, s.desk.receipts[i]);
      ReceiptOutlives(s, w, s.desk.receipts[i]);
    }
    forall c | c in t.desk.inFlight ensures AttemptOk(t, c) {
      AttemptOutlives(s, w, c);
    }
  }

  lemma ReceiptOutlives(s: System, w: W.World, r: C.Receipt)
    requires ReceiptOk(s, r) && Extends(s.world.rows, w.rows)
    ensures ReceiptOk(s.(world := w), r)
  {
  }

  lemma AttemptOutlives(s: System, w: W.World, c: nat)
    requires c in s.desk.inFlight && AttemptOk(s, c)
    ensures AttemptOk(s.(world := w), c)
  {
  }

  lemma AskedGrowsByExecuteOnly(w: W.World, a: W.Action)
    ensures W.Next(w, a).asked == w.asked
         || (a.Execute? && W.Next(w, a).asked == w.asked[a.call := W.Asked(a.request, RequestFingerprint(a.request))])
  {
  }

  lemma WorldStepKeepsInv(s: System, a: W.Action)
    requires Inv(s) && (a.Execute? ==> a.call in s.wire && s.wire[a.call].request == a.request)
    ensures Inv(s.(world := W.Next(s.world, a))) && Extends(s.world.rows, W.Next(s.world, a).rows)
  {
    var w := W.Next(s.world, a);
    W.NextKeepsInv(s.world, a);
    W.NextKeepsFaithful(s.world, a);
    AskedGrowsByExecuteOnly(s.world, a);
    forall c | c in w.asked ensures AskedOk(s.(world := w), c) {
      if c in s.world.asked { assert AskedOk(s, c); }
    }
    WorldMoves(s, w);
  }

  /** The desk changes; what it still holds or newly holds is in order. */
  lemma DeskMoves(s: System, t: System)
    requires Inv(s) && t.world == s.world && ExperimentsOk(t.desk) && WireOk(t.desk.namespace, t.wire)
    requires forall c :: c in s.wire ==> c in t.wire && t.wire[c] == s.wire[c]
    requires forall c :: c in t.desk.inFlight ==> AttemptOk(t, c)
    requires forall i :: 0 <= i < |t.desk.receipts| ==> ReceiptOk(t, t.desk.receipts[i])
    ensures Inv(t)
  {
    forall c | c in t.world.asked ensures AskedOk(t, c) {
      assert AskedOk(s, c);
    }
  }

  lemma ReceiptsStay(s: System, t: System)
    requires Inv(s) && t.world == s.world && t.desk.namespace == s.desk.namespace
    requires forall r :: r in t.desk.receipts ==> r in s.desk.receipts
    requires forall r :: r in t.desk.receipts ==> r.experimentId in t.desk.experiments
    requires forall e :: e in t.desk.experiments && e in s.desk.experiments ==>
        t.desk.experiments[e] == s.desk.experiments[e]
    ensures forall i :: 0 <= i < |t.desk.receipts| ==> ReceiptOk(t, t.desk.receipts[i])
  {
    forall i | 0 <= i < |t.desk.receipts| ensures ReceiptOk(t, t.desk.receipts[i]) {
      var r := t.desk.receipts[i];
      assert r in t.desk.receipts;
      var j :| 0 <= j < |s.desk.receipts| && s.desk.receipts[j] == r;
      assert ReceiptOk(s, s.desk.receipts[j]);
    }
  }

  lemma ExperimentsOfReceipts(s: System)
    requires Inv(s)
    ensures ExperimentsOk(s.desk)
    ensures forall r :: r in s.desk.receipts ==> r.experimentId in s.desk.experiments
  {
    forall r | r in s.desk.receipts ensures r.experimentId in s.desk.experiments {
      var j :| 0 <= j < |s.desk.receipts| && s.desk.receipts[j] == r;
      assert ReceiptOk(s, s.desk.receipts[j]);
    }
  }

  lemma AttemptsStay(s: System, t: System)
    requires Inv(s) && t.wire == s.wire && t.desk.inFlight == s.desk.inFlight && t.desk.namespace == s.desk.namespace
    requires s.desk.nextExperiment <= t.desk.nextExperiment
    requires forall e :: e in t.desk.experiments && e < s.desk.nextExperiment ==>
        e in s.desk.experiments && t.desk.experiments[e] == s.desk.experiments[e]
    ensures forall c :: c in t.desk.inFlight ==> AttemptOk(t, c)
  {
    hide W.Inv, RowsFaithful, AskedOk, ReceiptOk, ExperimentsOk, Ok, Stringify, BehaviorText;
    forall c | c in t.desk.inFlight ensures AttemptOk(t, c) { assert AttemptOk(s, c); }
  }

  /** The store of experiments changes: no receipt is new, and those left keep their experiment. */
  lemma EditKeepsInv(s: System, t: System)
    requires Inv(s) && t.world == s.world && t.wire == s.wire && t.desk.inFlight == s.desk.inFlight
    requires t.desk.namespace == s.desk.namespace
    requires ExperimentsOk(t.desk) && s.desk.nextExperiment <= t.desk.nextExperiment
    requires forall r :: r in t.desk.receipts ==> r in s.desk.receipts && r.experimentId in t.desk.experiments
    requires forall e :: e in t.desk.experiments && e < s.desk.nextExperiment ==>
        e in s.desk.experiments && t.desk.experiments[e] == s.desk.experiments[e]
    ensures Inv(t)
  {
    AttemptsStay(s, t);
    ExperimentsOfReceipts(s);
    hide Inv, AttemptOk, ReceiptOk;
    assert forall e :: e in s.desk.experiments ==> e < s.desk.nextExperiment;
    ReceiptsStay(s, t);
    DeskMoves(s, t);
  }

  lemma CreateKeepsInv(s: System, e: C.Experiment)
    requires Inv(s)
    ensures Inv(s.(desk := C.Next(s.desk, C.Create(e))))
  {
    ExperimentsOfReceipts(s);
    hide Inv, Ok;
    EditKeepsInv(s, s.(desk := C.Next(s.desk, C.Create(e))));
  }

  lemma DeleteKeepsInv(s: System, id: nat)
    requires Inv(s)
    ensures Inv(s.(desk := C.Next(s.desk, C.Delete(id))))
  {
    ExperimentsOfReceipts(s);
    hide Inv, Ok;
    EditKeepsInv(s, s.(desk := C.Next(s.desk, C.Delete(id))));
  }

  /** The request made for an experiment names it, and carries its payload and behaviour. */
  lemma MadeFor(d: C.Desk, id: nat, key: Option<Text>, correlationId: Text)
    requires ExperimentsOk(d) && id in d.experiments
    ensures Ok(d.experiments[id].payload) && id < d.nextExperiment
    ensures var e := d.experiments[id];
            var a := C.Attempt(id, key, C.RequestFor(d, id, e, key, correlationId), e.payload);
            SentOk(d.namespace, a) && a.request.behavior == BehaviorText(e.behavior)
  {
    BehaviorReadsBack(d.experiments[id].behavior);
    hide Stringify, BehaviorText, Ok, ParseBehavior;
  }

  lemma BegunState(s: System, t: System, call: nat, id: nat, key: Option<Text>, correlationId: Text)
    requires ExperimentsOk(s.desk) && call !in s.wire
    requires t == Sent(s, C.Next(s.desk, C.Begin(call, id, key, correlationId)), call)
    ensures t == s.(desk := s.desk.(inFlight := t.desk.inFlight), wire := t.wire)
    ensures forall c :: c in s.wire ==> c in t.wire && t.wire[c] == s.wire[c]
    ensures call in t.desk.inFlight && call !in s.desk.inFlight ==>
              id in s.desk.experiments && Ok(s.desk.experiments[id].payload) && call in t.wire
              && t.wire[call] == t.desk.inFlight[call]
              && var e := s.desk.experiments[id];
                 t.desk.inFlight[call] == C.Attempt(id, key, C.RequestFor(s.desk, id, e, key, correlationId), e.payload)
    ensures forall c :: c in t.desk.inFlight && c != call ==>
        c in s.desk.inFlight && t.desk.inFlight[c] == s.desk.inFlight[c]
    ensures forall c :: c in t.wire && c != call ==> c in s.wire
    ensures call in t.wire ==> call in t.desk.inFlight && t.wire[call] == t.desk.inFlight[call]
    ensures call in s.desk.inFlight || call !in t.desk.inFlight ==> t.desk.inFlight == s.desk.inFlight
  {
    hide C.Replay, C.RequestFor, Ok, ExperimentsOk;
  }

  lemma BegunAttempts(s: System, t: System, call: nat, id: nat, key: Option<Text>, correlationId: Text)
    requires ExperimentsOk(s.desk) && WireOk(s.desk.namespace, s.wire)
    requires forall c :: c in s.desk.inFlight ==> AttemptOk(s, c)
    requires call !in s.wire && t == Sent(s, C.Next(s.desk, C.Begin(call, id, key, correlationId)), call)
    ensures forall c :: c in t.desk.inFlight ==> AttemptOk(t, c)
    ensures t == s.(desk := s.desk.(inFlight := t.desk.inFlight), wire := t.wire)
    ensures forall c :: c in s.wire ==> c in t.wire && t.wire[c] == s.wire[c]
    ensures WireOk(t.desk.namespace, t.wire)
  {
    hide C.Next, C.RequestFor, Sent, SentOk, ExperimentsOk, BehaviorText, Ok;
    BegunState(s, t, call, id, key, correlationId);
    if call in t.desk.inFlight && call !in s.desk.inFlight { MadeFor(s.desk, id, key, correlationId); }
    forall c | c in t.desk.inFlight ensures AttemptOk(t, c) {
      if c in s.desk.inFlight { assert AttemptOk(s, c); }
    }
  }

  lemma DeskParts(s: System)
    requires Inv(s)
    ensures ExperimentsOk(s.desk) && WireOk(s.desk.namespace, s.wire)
    ensures forall c :: c in s.desk.inFlight ==> AttemptOk(s, c)
  {
    hide W.Inv, RowsFaithful, ExperimentsOk, WireOk, AttemptOk, ReceiptOk, AskedOk;
  }

  lemma BeginKeepsInv(s: System, call: nat, id: nat, key: Option<Text>, correlationId: Text)
    requires Inv(s) && call !in s.wire
    ensures Inv(Sent(s, C.Next(s.desk, C.Begin(call, id, key, correlationId)), call))
  {
    hide Inv, ReceiptOk, AttemptOk, C.Next, Sent, WireOk, ExperimentsOk;
    var t := Sent(s, C.Next(s.desk, C.Begin(call, id, key, correlationId)), call);
    DeskParts(s);
    BegunAttempts(s, t, call, id, key, correlationId);
    ExperimentsOfReceipts(s);
    ReceiptsStay(s, t);
    LeftExperiments(s.desk, t.desk);
    DeskMoves(s, t);
  }

  lemma LeaveKeepsAttempts(s: System, t: System, call: nat)
    requires Inv(s) && t.wire == s.wire && t.desk.inFlight == C.Leave(s.desk, call).inFlight
    requires t.desk.experiments == s.desk.experiments && t.desk.nextExperiment == s.desk.nextExperiment
        && t.desk.namespace == s.desk.namespace
    ensures forall c :: c in t.desk.inFlight ==> AttemptOk(t, c)
  {
    hide W.Inv, RowsFaithful, AskedOk, ReceiptOk, ExperimentsOk, WireOk, SentOk, BehaviorText;
    forall c | c in t.desk.inFlight ensures AttemptOk(t, c) { assert AttemptOk(s, c); }
  }

  lemma AttemptFacts(s: System, call: nat)
    requires Inv(s) && call in s.desk.inFlight
    ensures var a := s.desk.inFlight[call];
            && a.request.experimentRef == ExperimentRef(s.desk.namespace, a.experimentId)
            && (a.key.Some? ==> a.request.operationId == OperationId(s.desk.namespace, a.experimentId, a.key.value))
            && (a.experimentId in s.desk.experiments ==>
                a.request.behavior == BehaviorText(s.desk.experiments[a.experimentId].behavior)
                && a.payload == s.desk.experiments[a.experimentId].payload)
  {
    hide W.Inv, RowsFaithful, ExperimentsOk, WireOk, ReceiptOk, AskedOk, OperationId, ExperimentRef, Ok, Stringify;
    assert AttemptOk(s, call);
  }

  /** Whatever ends a call, its receipt says so. */
  lemma ObservedReceipt(s: System, t: System, call: nat, o: C.Observation)
    requires Inv(s) && call in s.desk.inFlight
    requires o.Failed? || (call in s.world.sent && o == s.world.sent[call])
    requires s.desk.inFlight[call].experimentId in s.desk.experiments
    requires t.world == s.world && t.desk.experiments == s.desk.experiments && t.desk.namespace == s.desk.namespace
    ensures ReceiptOk(t, C.ReceiptOf(s.desk.nextReceipt, s.desk.inFlight[call], o))
  {
    hide Inv, Classify, Expected, ReplyOk, OperationId, ExperimentRef, BehaviorText;
    AttemptFacts(s, call);
    if o.Replied? {
      AnswerClassified(s, call, s.desk.experiments[s.desk.inFlight[call].experimentId].behavior);
    }
  }

  lemma ObserveKeepsInv(s: System, call: nat, o: C.Observation)
    requires Inv(s) && call in s.desk.inFlight
    requires o.Failed? || (call in s.world.sent && o == s.world.sent[call])
    ensures Inv(s.(desk := C.Append(s.desk, call, o)))
  {
    hide Inv, ReceiptOk, AttemptOk, WireOk, ExperimentsOk, C.ReceiptOf;
    var t := s.(desk := C.Append(s.desk, call, o));
    var a := s.desk.inFlight[call];
    DeskParts(s);
    LeaveKeepsAttempts(s, t, call);
    ExperimentsOfReceipts(s);
    var kept := s.(desk := C.Leave(s.desk, call));
    ReceiptsStay(s, kept);
    if a.experimentId in s.desk.experiments { ObservedReceipt(s, t, call, o); }
    forall i | 0 <= i < |t.desk.receipts| ensures ReceiptOk(t, t.desk.receipts[i]) {
      if i < |s.desk.receipts| { SameReceipt(kept, t, s.desk.receipts[i]); }
    }
    LeftExperiments(s.desk, t.desk);
    DeskMoves(s, t);
  }

  lemma SameReceipt(s: System, t: System, r: C.Receipt)
    requires ReceiptOk(s, r) && t.world == s.world && t.desk.namespace == s.desk.namespace
        && t.desk.experiments == s.desk.experiments
    ensures ReceiptOk(t, r)
  {
    hide Classify, Expected, ReplyOk, OperationId, ExperimentRef;
  }

  lemma LeftExperiments(d: C.Desk, e: C.Desk)
    requires ExperimentsOk(d) && e.experiments == d.experiments && e.nextExperiment == d.nextExperiment
    ensures ExperimentsOk(e)
  {
    hide Ok;
  }

  lemma AbandonKeepsInv(s: System, call: nat)
    requires Inv(s)
    ensures Inv(s.(desk := C.Leave(s.desk, call)))
  {
    var t := s.(desk := C.Leave(s.desk, call));
    LeaveKeepsAttempts(s, t, call);
    ExperimentsOfReceipts(s);
    ReceiptsStay(s, t);
    DeskMoves(s, t);
  }

  predicate AtDesk(a: Action) {
    !a.Deliver? && !a.Inside?
  }

  lemma DeskStepKeepsInv(s: System, a: Action)
    requires Inv(s) && AtDesk(a)
    ensures Inv(Next(s, a)) && Next(s, a).world == s.world
  {
    hide Inv;
    match a
    case Create(e) => CreateKeepsInv(s, e);
    case Delete(id) => DeleteKeepsInv(s, id);
    case Begin(call, id, key, correlationId) =>
      if call !in s.wire { BeginKeepsInv(s, call, id, key, correlationId); }
    case Receive(call) =>
      if call in s.world.sent && call in s.desk.inFlight { ObserveKeepsInv(s, call, s.world.sent[call]); }
    case GiveUp(call, code) =>
      if call in s.desk.inFlight { ObserveKeepsInv(s, call, Failed(code)); }
    case Abandon(call) => AbandonKeepsInv(s, call);
  }

  lemma NextKeepsInv(s: System, a: Action)
    requires Inv(s)
    ensures Inv(Next(s, a)) && Extends(s.world.rows, Next(s, a).world.rows)
  {
    hide Inv, C.Next, W.Next;
    if AtDesk(a) {
      DeskStepKeepsInv(s, a);
    } else if a.Deliver? {
      if a.call in s.wire {
        WorldStepKeepsInv(s, W.Execute(a.owner, a.call, s.wire[a.call].request, a.executionId, a.now, a.callFault));
      }
    } else if !a.action.Execute? {
      WorldStepKeepsInv(s, a.action);
    }
  }

  lemma InitInv(s: System)
    requires Init(s)
    ensures Inv(s)
  {
  }

  lemma {:induction false} RunKeepsInv(s: System, actions: seq<Action>)
    requires Init(s)
    ensures Inv(Run(s, actions))
    decreases |actions|
  {
    hide Inv, Next;
    if actions == [] {
      InitInv(s);
    } else {
      RunKeepsInv(s, actions[..|actions| - 1]);
      NextKeepsInv(Run(s, actions[..|actions| - 1]), actions[|actions| - 1]);
    }
  }

  lemma {:induction false} RowsWriteOnce(s: System, before: seq<Action>, after: seq<Action>)
    requires Init(s)
    ensures Extends(Run(s, before).world.rows, Run(s, before + after).world.rows)
    decreases |after|
  {
    hide Inv, Next, Init;
    if after == [] {
      assert before + after == before;
    } else {
      var most := before + after[..|after| - 1];
      assert (before + after)[..|before + after| - 1] == most;
      RowsWriteOnce(s, before, after[..|after| - 1]);
      RunKeepsInv(s, most);
      NextKeepsInv(Run(s, most), after[|after| - 1]);
      ExtendsTransitive(Run(s, before).world.rows, Run(s, most).world.rows, Run(s, before + after).world.rows);
    }
  }

  // ----- one execution behind many attempts

  lemma EveryReceiptOk(s: System, actions: seq<Action>, r: C.Receipt)
    requires Init(s) && r in Run(s, actions).desk.receipts
    ensures ReceiptOk(Run(s, actions), r)
  {
    RunKeepsInv(s, actions);
    var t := Run(s, actions);
    var i :| 0 <= i < |t.desk.receipts| && t.desk.receipts[i] == r;
    assert ReceiptOk(t, t.desk.receipts[i]);
  }

  /**
   Over every run of coordinator, network and crashing runners, all success receipts with one
   operation id carry the same completed execution, identity, result and time included, and the
   ledger still holds it.
   */
  lemma OneExecutionBehindManyAttempts(s: System, actions: seq<Action>, r1: C.Receipt, r2: C.Receipt)
    requires Init(s)
    requires r1 in Run(s, actions).desk.receipts && r2 in Run(s, actions).desk.receipts
    requires r1.outcome == Success && r2.outcome == Success && r1.operationId == r2.operationId
    ensures r1.execution == r2.execution && r1.execution.Some?
    ensures r1.operationId in Run(s, actions).world.rows
    ensures View(Run(s, actions).world.rows[r1.operationId]) == r1.execution.value
  {
    hide Run, Init, Classify, Expected, OperationId, ExperimentRef;
    EveryReceiptOk(s, actions, r1);
    EveryReceiptOk(s, actions, r2);
  }

  /** An operation interrupted by a restart has no success receipt, then or at any later time. */
  lemma InterruptedNeverSucceeds(s: System, before: seq<Action>, after: seq<Action>, r: C.Receipt)
    requires Init(s)
    ensures var rows := Run(s, before).world.rows;
            (r in Run(s, before + after).desk.receipts && r.operationId in rows
             && rows[r.operationId].state == INTERRUPTED) ==> r.outcome != Success
  {
    hide Init, Next;
    var (t, u) := (Run(s, before), Run(s, before + after));
    RowsWriteOnce(s, before, after);
    if r in u.desk.receipts && r.operationId in t.world.rows {
      EveryReceiptOk(s, before + after, r);
      assert Advances(t.world.rows[r.operationId], u.world.rows[r.operationId]);
    }
  }

  lemma ExpectedSuccess(b: Behavior)
    ensures Expected(b) == Success <==> b == Healthy || b == Slow
  {
  }

  /**
   Whenever the runner answered with an execution, first call or replay, the receipt's outcome is
   the one the saved experiment calls for; a success receipt is never anything else.
   */
  lemma ReceiptsAreHonest(s: System, actions: seq<Action>, r: C.Receipt)
    requires Init(s) && r in Run(s, actions).desk.receipts
    ensures r.experimentId in Run(s, actions).desk.experiments
    ensures var b := Run(s, actions).desk.experiments[r.experimentId].behavior;
            (r.execution.Some? ==> r.outcome == Expected(b)) && (r.outcome == Success ==> b == Healthy || b == Slow)
  {
    hide Run, Init, Classify, OperationId, ExperimentRef, ReplyOk;
    EveryReceiptOk(s, actions, r);
    ExpectedSuccess(Run(s, actions).desk.experiments[r.experimentId].behavior);
  }

  // ----- operations stand for experiments and keys

  lemma EveryAttemptOk(s: System, actions: seq<Action>, c: nat)
    requires Init(s) && c in Run(s, actions).wire
    ensures SentOk(Run(s, actions).desk.namespace, Run(s, actions).wire[c])
  {
    hide Init, Inv, SentOk;
    RunKeepsInv(s, actions);
    DeskParts(Run(s, actions));
  }

  /**
   Over every run, two requests that were sent are for one operation if and only if they are for one
   experiment and one key, an exchange without a key counting as its own.
   */
  lemma OperationIsExperimentAndKey(s: System, actions: seq<Action>, c: nat, d: nat)
    requires Init(s) && IsNamespace(Run(s, actions).desk.namespace)
    requires c in Run(s, actions).wire && d in Run(s, actions).wire
    ensures var (a, b) := (Run(s, actions).wire[c], Run(s, actions).wire[d]);
            && (a.key.Some? && b.key.Some? ==>
                  (a.request.operationId == b.request.operationId <==>
                      a.experimentId == b.experimentId && a.key == b.key))
            && (a.key.None? && b.key.None? ==>
                  (a.request.operationId == b.request.operationId
                   <==> a.experimentId == b.experimentId && a.request.correlationId == b.request.correlationId))
            && (a.request.operationId == b.request.operationId
                <==> a.experimentId == b.experimentId && Subject(a) == Subject(b))
  {
    hide Run, Init, OperationId, ExperimentRef, IsNamespace, Ok, Stringify;
    EveryAttemptOk(s, actions, c);
    EveryAttemptOk(s, actions, d);
    var (n, a, b) := (Run(s, actions).desk.namespace, Run(s, actions).wire[c], Run(s, actions).wire[d]);
    if a.request.operationId == b.request.operationId {
      OperationIdInjective(n, a.experimentId, Subject(a), n, b.experimentId, Subject(b));
    }
  }

  /** However often, by whomever and across whatever restarts it is sent, the work of a key begins at most once. */
  lemma WorkOfKeyBeginsOnce(s: System, actions: seq<Action>, c: nat, d: nat, i: nat, j: nat)
    requires Init(s) && c in Run(s, actions).wire && d in Run(s, actions).wire
    requires var (a, b) := (Run(s, actions).wire[c], Run(s, actions).wire[d]);
        a.key.Some? && a.key == b.key && a.experimentId == b.experimentId
    requires i < |Run(s, actions).world.begun| && j < |Run(s, actions).world.begun|
    requires Run(s, actions).world.begun[i] == Run(s, actions).wire[c].request.operationId
    requires Run(s, actions).world.begun[j] == Run(s, actions).wire[d].request.operationId
    ensures i == j
  {
    EveryAttemptOk(s, actions, c);
    EveryAttemptOk(s, actions, d);
    hide Init, OperationId, ExperimentRef, Ok, Stringify;
    RunKeepsInv(s, actions);
    hide Run;
    BegunOnce(Run(s, actions), i, j);
  }

  lemma BegunOnce(s: System, i: nat, j: nat)
    requires Inv(s) && i < |s.world.begun| && j < |s.world.begun| && s.world.begun[i] == s.world.begun[j]
    ensures i == j
  {
    hide L.Inv, RowsFaithful, ExperimentsOk, WireOk, AskedOk, AttemptOk, ReceiptOk, MemoryOk, RowsOk, W.CallsOk;
    assert W.NoRepeats(s.world.begun);
  }

  /** All success receipts of one experiment and key carry one completed execution. */
  lemma OneExecutionBehindAKey(s: System, actions: seq<Action>, r1: C.Receipt, r2: C.Receipt)
    requires Init(s) && r1 in Run(s, actions).desk.receipts && r2 in Run(s, actions).desk.receipts
    requires r1.key.Some? && r1.key == r2.key && r1.experimentId == r2.experimentId
    requires r1.outcome == Success && r2.outcome == Success
    ensures r1.execution == r2.execution && r1.execution.Some?
  {
    EveryReceiptOk(s, actions, r1);
    EveryReceiptOk(s, actions, r2);
    hide Run, Init, Classify, Expected, OperationId, ExperimentRef, ReplyOk;
    OneExecutionBehindManyAttempts(s, actions, r1, r2);
  }

  /** A success receipt carries a completed execution whose stored echo is the saved experiment's payload. */
  lemma SuccessEchoesThePayload(s: System, actions: seq<Action>, r: C.Receipt)
    requires Init(s) && r in Run(s, actions).desk.receipts && r.outcome == Success
    ensures r.execution.Some? && r.experimentId in Run(s, actions).desk.experiments
    ensures r.execution.value.state == StateText(COMPLETED)
    ensures var (stored, payload) := (Parse(r.execution.value.resultJson),
        Run(s, actions).desk.experiments[r.experimentId].payload);
            stored.Some? && Ok(payload) && var echo := Lookup(stored.value, Ascii("echo"));
                echo.Some? && Ok(echo.value) && Canonical(echo.value) == Canonical(payload)
  {
    EveryReceiptOk(s, actions, r);
    RunKeepsInv(s, actions);
    ExperimentsOfReceipts(Run(s, actions));
    hide Run, Init, Inv, Classify, Expected, OperationId, ExperimentRef, ReplyOk, Ok, Canonical, Parse;
    SuccessIsBacked(r.execution.value, r.operationId, ExperimentRef(Run(s, actions).desk.namespace, r.experimentId),
      Run(s, actions).desk.experiments[r.experimentId].payload);
  }

  /** A receipt records an answer or a failure, and a failure by exactly its gRPC status. */
  lemma FailuresAreExact(s: System, actions: seq<Action>, r: C.Receipt)
    requires Init(s) && r in Run(s, actions).desk.receipts
    ensures r.code.Some? <==> r.execution.None?
    ensures r.outcome == Timeout <==> r.code == Some(DEADLINE_EXCEEDED)
    ensures r.outcome == Unreachable <==> r.code == Some(UNAVAILABLE)
    ensures r.code.Some? && r.code.value != DEADLINE_EXCEEDED && r.code.value != UNAVAILABLE
        ==> r.outcome == DownstreamError
  {
    EveryReceiptOk(s, actions, r);
    hide Run, Init, Classify, OperationId, ExperimentRef, ReplyOk;
  }

  /**
   A request that was sent for an accepted path, key and exchange id, with a payload within the runner's
   64000 units and bytes, is never refused as invalid, whatever the state of the runner it reaches.
   */
  lemma OrdinaryRequestsAreNotRefused(s: System, actions: seq<Action>, c: nat, segment: Text, rows: Rows, m: Memory,
      executionId: Text, now: Text, fault: CallFault)
    requires Init(s) && c in Run(s, actions).wire && IsNamespace(Run(s, actions).desk.namespace)
    requires var a := Run(s, actions).wire[c];
        && ParseExperimentId(segment) == Some(a.experimentId) && IsUuid(a.request.correlationId)
        && (a.key.Some? ==> IsHeaderValue(a.key.value, 80))
        && |a.request.payloadJson| <= 64000 && Utf8Length(a.request.payloadJson) <= 64000
    ensures var r := Run(s, actions).wire[c].request;
            Validate(r).Some? && Validate(r).value.1 == Run(s, actions).wire[c].payload
            && ExecuteRun(rows, m, c, r, executionId, now, fault).reply != Some(Failed(INVALID_ARGUMENT))
  {
    EveryAttemptOk(s, actions, c);
    var (n, a) := (Run(s, actions).desk.namespace, Run(s, actions).wire[c]);
    hide Run, Init, OperationId, ExperimentRef, ParseExperimentId, Stringify, Utf8Length, Ok, ParseBehavior, IsUuid,
      ExecuteRun, Validate;
    A.OrdinaryRequestsAreValid(a.request, n, segment, Subject(a), ParseBehavior(a.request.behavior).value, a.payload);
    NotRefused(rows, m, c, a.request, executionId, now, fault);
  }

  lemma NotRefused(rows: Rows, m: Memory, c: nat, r: Request, executionId: Text, now: Text, fault: CallFault)
    requires Validate(r).Some?
    ensures ExecuteRun(rows, m, c, r, executionId, now, fault).reply != Some(Failed(INVALID_ARGUMENT))
  {
    hide Validate, Fingerprint, Inserted, Insertable, View;
  }
}

/**
 The coordinator's attempt protocol (server/src/app.ts:104-198,
 coordinator-dotnet/Services/ExperimentService.cs:21-32): a settled receipt is replayed, anything
 else calls the runner and appends a new receipt. Experiments never change once created.
 */
module Coordinator {
  import opened Wrappers
  import opened JsonNumber
  import opened Json
  import opened Identity
  import opened Protocol

  datatype Experiment = Experiment(behavior: Behavior, payload: Json)

  /** An immutable record of one attempt; `execution` is what the runner answered, if it did. */
  datatype Receipt = Receipt(
    id: nat,
    experimentId: nat,
    key: Option<Text>,
    operationId: Text,
    outcome: Outcome,
    code: Option<Code>,
    execution: Option<Execution>)

  /** A run request between its runner call and its receipt. */
  datatype Attempt = Attempt(experimentId: nat, key: Option<Text>, request: Request, payload: Json)

  datatype Desk = Desk(
    namespace: Text,
    experiments: map<nat, Experiment>,
    nextExperiment: nat,
    receipts: seq<Receipt>,
    nextReceipt: nat,
    inFlight: map<nat, Attempt>)

  /** How a runner call ends for the coordinator: an answer, or a gRPC error such as a deadline. */
  type Observation = Reply

  datatype Action =
    | Create(experiment: Experiment)
    | Delete(experimentId: nat)
    | Begin(call: nat, experimentId: nat, key: Option<Text>, correlationId: Text)
    | Observe(call: nat, observation: Observation)
    | Abandon(call: nat)

  predicate Settles(o: Outcome) {
    o != Timeout && o != Unreachable
  }

  predicate ForKey(r: Receipt, experimentId: nat, key: Text) {
    r.experimentId == experimentId && r.key == Some(key)
  }

  /** ORDER BY id DESC LIMIT 1; receipts are kept in id order. */
  function FindRunByKey(rs: seq<Receipt>, experimentId: nat, key: Text): (r: Option<Receipt>)
    ensures r.Some? ==> r.value in rs && ForKey(r.value, experimentId, key)
    ensures r.None? ==> forall i :: 0 <= i < |rs| ==> !ForKey(rs[i], experimentId, key)
  {
    if rs == [] then None
    else if ForKey(rs[|rs| - 1], experimentId, key) then Some(rs[|rs| - 1])
    else FindRunByKey(rs[..|rs| - 1], experimentId, key)
  }

  /** The receipt a repeated request is answered with instead of calling the runner. */
  function Replay(d: Desk, experimentId: nat, key: Option<Text>): Option<Receipt> {
    if key.None? then None
    else match FindRunByKey(d.receipts, experimentId, key.value)
      case Some(r) => if Settles(r.outcome) then Some(r) else None
      case None => None
  }

  function RequestFor(d: Desk, experimentId: nat, e: Experiment, key: Option<Text>, correlationId: Text): Request
    requires Ok(e.payload)
  {
    Request(OperationId(d.namespace, experimentId, if key.Some? then key.value else correlationId), correlationId,
            ExperimentRef(d.namespace, experimentId), BehaviorText(e.behavior), Stringify(e.payload))
  }

  function OutcomeOf(a: Attempt, o: Observation): Outcome {
    match o
    case Replied(e) => Classify(e, a.request.operationId, a.request.experimentRef, a.payload)
    case Failed(code) => ClassifyFailure(code)
  }

  function ReceiptOf(id: nat, a: Attempt, o: Observation): Receipt {
    Receipt(id, a.experimentId, a.key, a.request.operationId, OutcomeOf(a, o),
            if o.Failed? then Some(o.code) else None, if o.Replied? then Some(o.execution) else None)
  }

  /** The receipts left when an experiment is deleted with its runs. */
  function ReceiptsWithout(rs: seq<Receipt>, experimentId: nat): (r: seq<Receipt>)
    ensures forall x :: x in r <==> x in rs && x.experimentId != experimentId
  {
    if rs == [] then []
    else if rs[|rs| - 1].experimentId == experimentId then ReceiptsWithout(rs[..|rs| - 1], experimentId)
    else ReceiptsWithout(rs[..|rs| - 1], experimentId) + [rs[|rs| - 1]]
  }

  function Next(d: Desk, a: Action): Desk {
    match a
    case Create(e) =>
      if e.payload.Obj? && Ok(e.payload)
      then d.(experiments := d.experiments[d.nextExperiment := e], nextExperiment := d.nextExperiment + 1) else d
    case Delete(id) =>
      d.(experiments := map e | e in d.experiments && e != id :: d.experiments[e],
          receipts := ReceiptsWithout(d.receipts, id))
    case Begin(call, id, key, correlationId) =>
      if id !in d.experiments || !Ok(d.experiments[id].payload) || call in d.inFlight || Replay(d, id, key).Some? then d
      else
        var e := d.experiments[id];
        d.(inFlight := d.inFlight[call := Attempt(id, key, RequestFor(d, id, e, key, correlationId), e.payload)])
    case Observe(call, o) => if call in d.inFlight then Append(d, call, o) else d
    case Abandon(call) => Leave(d, call)
  }

  function Leave(d: Desk, call: nat): Desk {
    d.(inFlight := Without(d.inFlight, call))
  }

  /** The receipt is appended unless its experiment has been deleted meanwhile. */
  function Append(d: Desk, call: nat, o: Observation): Desk
    requires call in d.inFlight
  {
    var a := d.inFlight[call];
    if a.experimentId in d.experiments
    then Leave(d, call).(receipts := d.receipts + [ReceiptOf(d.nextReceipt, a, o)], nextReceipt := d.nextReceipt + 1)
    else Leave(d, call)
  }

  function Run(d: Desk, actions: seq<Action>): Desk
    decreases |actions|
  {
    if actions == [] then d else Next(Run(d, actions[..|actions| - 1]), actions[|actions| - 1])
  }

  predicate Init(d: Desk) {
    d.experiments == map[] && d.receipts == [] && d.inFlight == map[]
  }

  // ----- the shape of a key's history

  /** At most the newest receipt of an experiment and key is settled. */
  ghost predicate Shape(rs: seq<Receipt>) {
    forall i, j :: 0 <= i < j < |rs| && rs[i].key.Some? && rs[i].experimentId == rs[j].experimentId
        && rs[i].key == rs[j].key
      ==> !Settles(rs[i].outcome)
  }

  predicate InFlightFor(d: Desk, experimentId: nat, key: Option<Text>) {
    exists c :: c in d.inFlight && d.inFlight[c].experimentId == experimentId && d.inFlight[c].key == key
  }

  /** A keyed request begins only while no other request for its experiment and key is in flight. */
  predicate Serial(d: Desk, a: Action) {
    a.Begin? && a.key.Some? ==> !InFlightFor(d, a.experimentId, a.key)
  }

  ghost predicate SerialRun(d: Desk, actions: seq<Action>) {
    forall k :: 0 <= k < |actions| ==> Serial(Run(d, actions[..k]), actions[k])
  }

  /** A keyed attempt in flight is the only one for its key, and no receipt for the key is settled yet. */
  ghost predicate Alone(d: Desk, c: nat)
    requires c in d.inFlight
  {
    var a := d.inFlight[c];
    a.key.Some? ==>
      && (forall b :: b in d.inFlight && d.inFlight[b].experimentId == a.experimentId && d.inFlight[b].key == a.key ==>
          b == c)
      && (forall i :: 0 <= i < |d.receipts| && ForKey(d.receipts[i], a.experimentId, a.key.value) ==>
          !Settles(d.receipts[i].outcome))
  }

  ghost predicate ShapeInv(d: Desk) {
    Shape(d.receipts) && forall c :: c in d.inFlight ==> Alone(d, c)
  }

  lemma WithoutLast(rs: seq<Receipt>, r: Receipt, id: nat)
    ensures ReceiptsWithout(rs + [r], id) == ReceiptsWithout(rs, id) + (if r.experimentId == id then [] else [r])
    ensures ReceiptsWithout([], id) == []
  {
    assert (rs + [r])[..|rs|] == rs;
  }

  /** Deleting an experiment treats its receipts one by one, so all others stay, in their order. */
  lemma {:induction false} DeletionSplits(before: seq<Receipt>, after: seq<Receipt>, id: nat)
    ensures ReceiptsWithout(before + after, id) == ReceiptsWithout(before, id) + ReceiptsWithout(after, id)
    ensures forall r :: ReceiptsWithout([r], id) == if r.experimentId == id then [] else [r]
    decreases |after|
  {
    hide ReceiptsWithout;
    forall r ensures ReceiptsWithout([r], id) == if r.experimentId == id then [] else [r] {
      WithoutLast([], r, id);
      assert [] + [r] == [r];
    }
    if after == [] {
      WithoutLast([], Receipt(0, 0, None, [], Success, None, None), id);
      assert before + after == before;
    } else {
      var init, last := after[..|after| - 1], after[|after| - 1];
      assert before + after == (before + init) + [last] && after == init + [last];
      DeletionSplits(before, init, id);
      WithoutLast(before + init, last, id);
      WithoutLast(init, last, id);
    }
  }

  /** Deletion takes the experiment and its receipts, and nothing else. */
  lemma DeletionIsExact(d: Desk, id: nat)
    ensures var t := Next(d, Delete(id));
            && (forall e :: e in t.experiments <==> e in d.experiments && e != id)
            && (forall e :: e in t.experiments ==> t.experiments[e] == d.experiments[e])
            && (forall r :: r in t.receipts <==> r in d.receipts && r.experimentId != id)
            && t.inFlight == d.inFlight && t.nextExperiment == d.nextExperiment && t.nextReceipt == d.nextReceipt
  {
  }

  ghost predicate Deleted(d: Desk, id: nat) {
    id < d.nextExperiment && id !in d.experiments
    && forall i :: 0 <= i < |d.receipts| ==> d.receipts[i].experimentId != id
  }

  /** A deleted experiment never returns, and no answer that arrives later leaves a receipt for it. */
  lemma {:induction false} DeletedForEver(d: Desk, id: nat, actions: seq<Action>)
    requires id in d.experiments && id < d.nextExperiment
    ensures Deleted(Run(Next(d, Delete(id)), actions), id)
    decreases |actions|
  {
    if actions == [] {
      DeletionIsExact(d, id);
      forall i | 0 <= i < |Next(d, Delete(id)).receipts| ensures Next(d, Delete(id)).receipts[i].experimentId != id {
        assert Next(d, Delete(id)).receipts[i] in Next(d, Delete(id)).receipts;
      }
    } else {
      DeletedForEver(d, id, actions[..|actions| - 1]);
      DeletedStays(Run(Next(d, Delete(id)), actions[..|actions| - 1]), actions[|actions| - 1], id);
    }
  }

  lemma DeletedStays(d: Desk, a: Action, id: nat)
    requires Deleted(d, id)
    ensures Deleted(Next(d, a), id)
  {
    hide RequestFor, OutcomeOf, Replay, Ok;
    if a.Delete? {
      DeletionIsExact(d, a.experimentId);
      forall i | 0 <= i < |Next(d, a).receipts| ensures Next(d, a).receipts[i].experimentId != id {
        assert Next(d, a).receipts[i] in Next(d, a).receipts;
      }
    }
  }

  // ----- receipts are in the order of their ids

  ghost predicate InOrder(rs: seq<Receipt>, next: nat) {
    (forall i, j :: 0 <= i < j < |rs| ==> rs[i].id < rs[j].id) && forall i :: 0 <= i < |rs| ==> rs[i].id < next
  }

  lemma {:induction false} WithoutInOrder(rs: seq<Receipt>, next: nat, id: nat)
    requires InOrder(rs, next)
    ensures InOrder(ReceiptsWithout(rs, id), next)
    decreases |rs|
  {
    hide ReceiptsWithout;
    if rs == [] {
      WithoutLast([], Receipt(0, 0, None, [], Success, None, None), id);
    } else {
      var init, last := rs[..|rs| - 1], rs[|rs| - 1];
      assert rs == init + [last] && InOrder(init, last.id);
      WithoutInOrder(init, last.id, id);
      WithoutLast(init, last, id);
    }
  }

  /** Receipts are kept in the order of their ids, each id once, so the last one for a key has the largest id. */
  lemma {:induction false} ReceiptsInOrder(d: Desk, actions: seq<Action>)
    requires Init(d)
    ensures InOrder(Run(d, actions).receipts, Run(d, actions).nextReceipt)
    decreases |actions|
  {
    if actions != [] {
      ReceiptsInOrder(d, actions[..|actions| - 1]);
      StepKeepsOrder(Run(d, actions[..|actions| - 1]), actions[|actions| - 1]);
    }
  }

  lemma StepKeepsOrder(d: Desk, a: Action)
    requires InOrder(d.receipts, d.nextReceipt)
    ensures InOrder(Next(d, a).receipts, Next(d, a).nextReceipt)
  {
    hide RequestFor, OutcomeOf, Replay, Ok;
    if a.Delete? { WithoutInOrder(d.receipts, d.nextReceipt, a.experimentId); }
  }

  // ----- which requests call the runner

  predicate Newest(rs: seq<Receipt>, i: nat, experimentId: nat, key: Text) {
    i < |rs| && ForKey(rs[i], experimentId, key) && forall j :: i < j < |rs| ==> !ForKey(rs[j], experimentId, key)
  }

  lemma {:induction false} FoundIsNewest(rs: seq<Receipt>, id: nat, key: Text, i: nat)
    requires Newest(rs, i, id, key)
    ensures FindRunByKey(rs, id, key) == Some(rs[i])
    decreases |rs|
  {
    if i < |rs| - 1 {
      assert !ForKey(rs[|rs| - 1], id, key);
      FoundIsNewest(rs[..|rs| - 1], id, key, i);
    }
  }

  lemma {:induction false} NewestExists(rs: seq<Receipt>, id: nat, key: Text)
    requires FindRunByKey(rs, id, key).Some?
    ensures exists i: nat :: Newest(rs, i, id, key)
    decreases |rs|
  {
    if ForKey(rs[|rs| - 1], id, key) {
      assert Newest(rs, |rs| - 1, id, key);
    } else {
      NewestExists(rs[..|rs| - 1], id, key);
      var i: nat :| Newest(rs[..|rs| - 1], i, id, key);
      assert Newest(rs, i, id, key);
    }
  }

  /**
   A request for an existing experiment does not call the runner if and only if it has a key whose newest
   receipt is a success, a failure of the work or an invalid response; after a timeout or an unreachable
   runner it does.
   */
  lemma OnlySettledKeysAreReplayed(d: Desk, call: nat, id: nat, key: Option<Text>, correlationId: Text)
    requires id in d.experiments && Ok(d.experiments[id].payload) && call !in d.inFlight
    ensures var t := Next(d, Begin(call, id, key, correlationId));
            && t.receipts == d.receipts && t.experiments == d.experiments
            && (call !in t.inFlight <==> key.Some? && exists i: nat ::
                  Newest(d.receipts, i, id, key.value)
                  && d.receipts[i].outcome in {Success, DownstreamError, InvalidResponse})
  {
    hide RequestFor, Ok;
    if key.Some? {
      forall i: nat | Newest(d.receipts, i, id, key.value)
        ensures FindRunByKey(d.receipts, id, key.value) == Some(d.receipts[i]) {
        FoundIsNewest(d.receipts, id, key.value, i);
      }
      if FindRunByKey(d.receipts, id, key.value).Some? { NewestExists(d.receipts, id, key.value); }
    }
  }

  lemma {:induction false} WithoutShape(rs: seq<Receipt>, id: nat)
    requires Shape(rs)
    ensures Shape(ReceiptsWithout(rs, id))
    decreases |rs|
  {
    hide ReceiptsWithout, Settles;
    if rs == [] {
      WithoutLast([], Receipt(0, 0, None, [], Success, None, None), id);
    } else {
      var init := rs[..|rs| - 1];
      assert rs == init + [rs[|rs| - 1]];
      WithoutShape(init, id);
      WithoutLast(init, rs[|rs| - 1], id);
      var r := ReceiptsWithout(init, id);
      forall i | 0 <= i < |r| ensures exists k :: 0 <= k < |init| && init[k] == r[i] {
        assert r[i] in r;
      }
    }
  }

  lemma {:induction false} NewestIsUnsettled(rs: seq<Receipt>, id: nat, key: Text)
    requires Shape(rs)
    requires FindRunByKey(rs, id, key).Some? ==> !Settles(FindRunByKey(rs, id, key).value.outcome)
    ensures forall i :: 0 <= i < |rs| && ForKey(rs[i], id, key) ==> !Settles(rs[i].outcome)
  {
    if rs != [] && !ForKey(rs[|rs| - 1], id, key) {
      var init := rs[..|rs| - 1];
      NewestIsUnsettled(init, id, key);
      forall i | 0 <= i < |rs| && ForKey(rs[i], id, key) ensures !Settles(rs[i].outcome) {
        assert rs[i] == init[i];
      }
    }
  }

  lemma BeginKeepsShape(d: Desk, a: Action)
    requires ShapeInv(d) && a.Begin? && Serial(d, a)
    ensures ShapeInv(Next(d, a))
  {
    var t := Next(d, a);
    if t != d {
      if a.key.Some? { NewestIsUnsettled(d.receipts, a.experimentId, a.key.value); }
      forall c | c in t.inFlight ensures Alone(t, c) {
        if c != a.call { assert Alone(d, c); }
      }
    }
  }

  lemma ObserveKeepsShape(d: Desk, call: nat, o: Observation)
    requires ShapeInv(d) && call in d.inFlight
    ensures ShapeInv(Append(d, call, o))
  {
    var t := Append(d, call, o);
    assert Alone(d, call);
    forall c | c in t.inFlight ensures Alone(t, c) {
      assert Alone(d, c);
    }
  }

  lemma DeleteKeepsShape(d: Desk, id: nat)
    requires ShapeInv(d)
    ensures ShapeInv(Next(d, Delete(id)))
  {
    var t := Next(d, Delete(id));
    WithoutShape(d.receipts, id);
    forall c | c in t.inFlight ensures Alone(t, c) {
      assert Alone(d, c);
      forall i | 0 <= i < |t.receipts| ensures t.receipts[i] in d.receipts {
        assert t.receipts[i] in t.receipts;
      }
    }
  }

  lemma NextKeepsShape(d: Desk, a: Action)
    requires ShapeInv(d) && Serial(d, a)
    ensures ShapeInv(Next(d, a))
  {
    match a
    case Begin(_, _, _, _) => BeginKeepsShape(d, a);
    case Observe(call, o) => if call in d.inFlight { ObserveKeepsShape(d, call, o); }
    case Delete(id) => DeleteKeepsShape(d, id);
    case _ =>
      forall c | c in Next(d, a).inFlight ensures Alone(Next(d, a), c) { assert Alone(d, c); }
  }

  lemma {:induction false} SerialRunKeepsShape(d: Desk, actions: seq<Action>)
    requires Init(d) && SerialRun(d, actions)
    ensures ShapeInv(Run(d, actions))
    decreases |actions|
  {
    if actions != [] {
      var most := actions[..|actions| - 1];
      forall k | 0 <= k < |most| ensures Serial(Run(d, most[..k]), most[k]) {
        assert most[..k] == actions[..k];
      }
      SerialRunKeepsShape(d, most);
      NextKeepsShape(Run(d, most), actions[|actions| - 1]);
    }
  }

  lemma {:induction false} NewestIsSettled(rs: seq<Receipt>, r: Receipt, key: Text)
    requires Shape(rs) && r in rs && r.key == Some(key) && Settles(r.outcome)
    ensures FindRunByKey(rs, r.experimentId, key) == Some(r)
  {
    var last := rs[|rs| - 1];
    var init := rs[..|rs| - 1];
    assert rs == init + [last];
    if ForKey(last, r.experimentId, key) {
      var i :| 0 <= i < |rs| && rs[i] == r;
    } else {
      assert r in init;
      NewestIsSettled(init, r, key);
    }
  }

  /**
   When requests for one experiment and key do not overlap, the key's receipts are unsettled ones
   followed by at most one settled receipt; from then on a request is answered with that receipt
   and calls no runner.
   */
  lemma SettledReceiptIsFinal(d: Desk, actions: seq<Action>, r: Receipt, call: nat, correlationId: Text)
    requires Init(d) && SerialRun(d, actions)
    requires r in Run(d, actions).receipts && r.key.Some? && Settles(r.outcome)
    ensures Shape(Run(d, actions).receipts)
    ensures Replay(Run(d, actions), r.experimentId, r.key) == Some(r)
    ensures Next(Run(d, actions), Begin(call, r.experimentId, r.key, correlationId)) == Run(d, actions)
  {
    SerialRunKeepsShape(d, actions);
    NewestIsSettled(Run(d, actions).receipts, r, r.key.value);
  }

  /**
   Overlap is what breaks the shape: from every state where two requests for one experiment and key are
   in flight, any settling answer to the first followed by an unsettled end of the second leaves a settled
   receipt that is not the newest, so the next request calls the runner again.
   */
  lemma OverlapBreaksShape(d: Desk, c1: nat, c2: nat, first: Observation, second: Observation)
    requires Overlapping(d, c1, c2)
    requires Settles(OutcomeOf(d.inFlight[c1], first)) && !Settles(OutcomeOf(d.inFlight[c2], second))
    ensures var t := Next(Next(d, Observe(c1, first)), Observe(c2, second));
            !Shape(t.receipts) && Replay(t, d.inFlight[c1].experimentId, d.inFlight[c1].key).None?
  {
    hide OutcomeOf;
    var t1 := Next(d, Observe(c1, first));
    var t := Next(t1, Observe(c2, second));
    var n := |d.receipts|;
    assert t.receipts[n] == ReceiptOf(d.nextReceipt, d.inFlight[c1], first);
    assert t.receipts[n + 1] == ReceiptOf(t1.nextReceipt, d.inFlight[c2], second);
  }

  /** Two requests for one experiment and key that still exists are between their call and their receipt. */
  predicate Overlapping(d: Desk, c1: nat, c2: nat) {
    c1 in d.inFlight && c2 in d.inFlight && c1 != c2 && d.inFlight[c1].key.Some?
    && d.inFlight[c1].key == d.inFlight[c2].key && d.inFlight[c1].experimentId == d.inFlight[c2].experimentId
    && d.inFlight[c1].experimentId in d.experiments
  }

  function TwoRequests(d: Desk, e: Experiment, key: Text, correlationId: Text): seq<Action> {
    [Create(e), Begin(0, d.nextExperiment, Some(key), correlationId),
        Begin(1, d.nextExperiment, Some(key), correlationId)]
  }

  /** From an empty desk, one experiment and two requests for it with one key are such a state. */
  lemma OverlapIsReached(d: Desk, e: Experiment, key: Text, correlationId: Text)
    requires Init(d) && e.payload.Obj? && Ok(e.payload)
    ensures var t := Run(d, TwoRequests(d, e, key, correlationId));
            Overlapping(t, 0, 1) && t.inFlight[0].experimentId == d.nextExperiment && t.inFlight[0].key == Some(key)
  {
    hide RequestFor, Ok;
    var actions := TwoRequests(d, e, key, correlationId);
    assert actions[..2][..1] == actions[..1] && actions[..1][..0] == [];
    var d1 := Next(d, actions[0]);
    assert Run(d, actions[..1]) == d1;
    assert Run(d, actions[..2]) == Next(d1, actions[1]);
    assert Run(d, actions) == Next(Next(d1, actions[1]), actions[2]);
  }

  /**
   So a run from the empty desk breaks the shape as soon as the first answer settles and a deadline ends
   the second.
   */
  lemma OverlapLosesSettledReceipt(d: Desk, e: Experiment, key: Text, correlationId: Text, first: Observation)
    requires Init(d) && e.payload.Obj? && Ok(e.payload)
    requires var s := Run(d, TwoRequests(d, e, key, correlationId));
        0 in s.inFlight && Settles(OutcomeOf(s.inFlight[0], first))
    ensures var t := Next(Next(Run(d, TwoRequests(d, e, key, correlationId)), Observe(0, first)),
        Observe(1, Failed(DEADLINE_EXCEEDED)));
            !Shape(t.receipts) && Replay(t, d.nextExperiment, Some(key)).None?
  {
    OverlapIsReached(d, e, key, correlationId);
    assert !Settles(OutcomeOf(Run(d, TwoRequests(d, e, key, correlationId)).inFlight[1], Failed(DEADLINE_EXCEEDED)));
    hide Run, OutcomeOf, Next, Shape, Replay, TwoRequests, Ok;
    OverlapBreaksShape(Run(d, TwoRequests(d, e, key, correlationId)), 0, 1, first, Failed(DEADLINE_EXCEEDED));
  }
}

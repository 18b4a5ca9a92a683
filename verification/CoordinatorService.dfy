/**
 The handler of POST /api/experiments/:experimentId/runs (server/src/app.ts:104-198,
 coordinator-dotnet/Services/ExperimentService.cs:21-32): look up, replay, or call the runner and append
 a receipt, while any other requests run during the call. It is proved to take the steps of module
 Coordinator.
 */
module CoordinatorService {
  import opened Wrappers
  import opened JsonNumber
  import opened Json
  import opened Identity
  import opened Protocol
  import Machine = Coordinator

  /** 404, 200 with the replay header, 201, or the error of an experiment deleted during the call. */
  datatype Response = NotFound | Replayed(receipt: Machine.Receipt) | Recorded(receipt: Machine.Receipt) | RunRefused

  function LowerUnit(u: Unit): Unit {
    if 0x41 <= u <= 0x5A then (u as int + 0x20) as Unit else u
  }

  function Lower(t: Text): (r: Text)
    ensures |r| == |t| && forall i :: 0 <= i < |t| ==> r[i] == LowerUnit(t[i])
  {
    seq(|t|, i requires 0 <= i < |t| => LowerUnit(t[i]))
  }

  /** The caller's exchange id when it is a UUID, in lower case, and otherwise a new one. */
  function CorrelationId(requested: Option<Text>, minted: Text): (id: Text)
    requires IsUuid(minted)
    ensures IsUuid(id)
  {
    if requested.Some? && IsUuid(requested.value) then
      LowerIsUuid(requested.value);
      Lower(requested.value)
    else minted
  }

  /** A caller's UUID is kept as the exchange id, in lower case; any other header gets a new one. */
  lemma ExchangeIdIsKept(left: Text, t: Text, right: Text, minted: Text)
    requires AllBlank(left) && AllBlank(right) && IsUuid(minted) && t != [] && !Blank(t[0]) && !Blank(t[|t| - 1])
    ensures var id := CorrelationId(ReadHeader(Some(left + t + right), 36), minted);
            if IsUuid(t) then |id| == 36 && (forall i :: 0 <= i < 36 ==> id[i] == LowerUnit(t[i])) else id == minted
    ensures CorrelationId(None, minted) == minted
  {
    HeaderReadsBack(left, t, right, 36);
    if IsUuid(t) { UuidIsHeader(t); }
  }

  lemma UuidIsHeader(t: Text)
    requires IsUuid(t)
    ensures IsHeaderValue(t, 36)
  {
    forall i | 0 <= i < 36 ensures HeaderUnit(t[i]) {
      if i != 8 && i != 13 && i != 18 && i != 23 { assert IsHex(t[i]); }
    }
  }

  lemma LowerIsUuid(t: Text)
    requires IsUuid(t)
    ensures IsUuid(Lower(t))
  {
    forall i | 0 <= i < 36 && !(i == 8 || i == 13 || i == 18 || i == 23) ensures IsHex(Lower(t)[i]) {
      assert IsHex(t[i]);
    }
  }

  /** The other requests that run while this one awaits the runner leave its own attempt alone. */
  predicate Elsewhere(a: Machine.Action, call: nat) {
    match a
    case Begin(c, _, _, _) => c != call
    case Observe(c, _) => c != call
    case Abandon(c) => c != call
    case _ => true
  }

  lemma {:induction false} AttemptWaits(d: Machine.Desk, actions: seq<Machine.Action>, call: nat)
    requires call in d.inFlight && forall k :: 0 <= k < |actions| ==> Elsewhere(actions[k], call)
    ensures var t := Machine.Run(d, actions); call in t.inFlight && t.inFlight[call] == d.inFlight[call]
    decreases |actions|
  {
    if actions != [] {
      AttemptWaits(d, actions[..|actions| - 1], call);
      assert Elsewhere(actions[|actions| - 1], call);
    }
  }

  class ExperimentService {
    const namespace: Text
    var experiments: map<nat, Machine.Experiment>
    var nextExperiment: nat
    var receipts: seq<Machine.Receipt>
    var nextReceipt: nat
    var inFlight: map<nat, Machine.Attempt>

    function View(): Machine.Desk
      reads this
    {
      Machine.Desk(namespace, experiments, nextExperiment, receipts, nextReceipt, inFlight)
    }

    constructor (namespace: Text)
      ensures Machine.Init(View()) && this.namespace == namespace
    {
      this.namespace := namespace;
      experiments, nextExperiment, receipts, nextReceipt, inFlight := map[], 0, [], 0, map[];
    }

    /** Other handlers, one action at a time. */
    method Meanwhile(actions: seq<Machine.Action>)
      modifies this
      ensures View() == Machine.Run(old(View()), actions)
    {
      var i := 0;
      while i < |actions|
        invariant i <= |actions| && View() == Machine.Run(old(View()), actions[..i])
      {
        assert actions[..i + 1][..i] == actions[..i];
        hide Machine.Next;
        var d := Machine.Next(View(), actions[i]);
        NamespaceStays(View(), actions[i]);
        experiments, nextExperiment, receipts, nextReceipt, inFlight := d.experiments, d.nextExperiment, d.receipts,
            d.nextReceipt, d.inFlight;
        i := i + 1;
      }
      assert actions[..i] == actions;
    }

    /**
     One request. `call` names it, `others` are the actions of other requests during the runner call,
     which ends with `observation`.
     */
    method Execute(call: nat, segment: Text, keyHeader: Option<Text>, idHeader: Option<Text>, minted: Text,
        others: seq<Machine.Action>, observation: Machine.Observation)
      returns (r: Response)
      requires IsUuid(minted) && call !in inFlight
      requires forall e :: e in experiments ==> Ok(experiments[e].payload)
      requires forall k :: 0 <= k < |others| ==> Elsewhere(others[k], call)
      modifies this
      ensures var id := ParseExperimentId(segment);
              r.NotFound? <==> id.None? || id.value !in old(experiments)
      ensures r.NotFound? || r.Replayed? ==> View() == old(View())
      ensures !r.NotFound? ==>
                var replay := Machine.Replay(old(View()), ParseExperimentId(segment).value, ReadHeader(keyHeader, 80));
                (r.Replayed? <==> replay.Some?) && (r.Replayed? ==> replay == Some(r.receipt))
      ensures r.Recorded? || r.RunRefused? ==>
                var begin := Machine.Begin(call, ParseExperimentId(segment).value, ReadHeader(keyHeader, 80),
                  CorrelationId(ReadHeader(idHeader, 36), minted));
                View() == Machine.Next(Machine.Run(Machine.Next(old(View()), begin), others),
                    Machine.Observe(call, observation))
      ensures r.Recorded? ==>
          |receipts| > 0 && receipts[|receipts| - 1] == r.receipt && r.receipt.key == ReadHeader(keyHeader, 80)
      ensures r.Recorded? ==>
                var (id, key) := (ParseExperimentId(segment).value, ReadHeader(keyHeader, 80));
                r.receipt.experimentId == id
                && r.receipt.operationId == OperationId(namespace, id,
                    if key.Some? then key.value else CorrelationId(ReadHeader(idHeader, 36), minted))
      ensures r.RunRefused? ==> ParseExperimentId(segment).value !in experiments
    {
      hide ParseExperimentId, ReadHeader, CorrelationId, Machine.RequestFor, Machine.Append, Machine.Leave, Machine.Run,
        Elsewhere;
      var experimentId := ParseExperimentId(segment);
      if experimentId.None? || experimentId.value !in experiments { return NotFound; }
      var id, key := experimentId.value, ReadHeader(keyHeader, 80);
      if key.Some? {
        var earlier := Machine.FindRunByKey(receipts, id, key.value);
        if earlier.Some? && earlier.value.outcome != Timeout
            && earlier.value.outcome != Unreachable { return Replayed(earlier.value); }
      }
      var correlationId := CorrelationId(ReadHeader(idHeader, 36), minted);
      var experiment := experiments[id];
      var attempt := Machine.Attempt(id, key, Machine.RequestFor(View(), id, experiment, key, correlationId),
        experiment.payload);
      OperationOf(View(), id, experiment, key, correlationId);
      inFlight := inFlight[call := attempt];
      ghost var begun := View();
      assert begun == Machine.Next(old(View()), Machine.Begin(call, id, key, correlationId));
      AttemptWaits(begun, others, call);
      Meanwhile(others);
      r := Append(call, attempt, observation);
    }

    /** createRun, which fails when the experiment is gone. */
    method Append(call: nat, attempt: Machine.Attempt, observation: Machine.Observation) returns (r: Response)
      requires call in inFlight && inFlight[call] == attempt
      modifies this
      ensures View() == Machine.Next(old(View()), Machine.Observe(call, observation))
      ensures if attempt.experimentId in experiments then |receipts| > 0 && r == Recorded(receipts[|receipts| - 1])
          && r.receipt.key == attempt.key && r.receipt.id == old(nextReceipt)
          && r.receipt.operationId == attempt.request.operationId && r.receipt.experimentId == attempt.experimentId
              else r == RunRefused
    {
      inFlight := Machine.Leave(View(), call).inFlight;
      if attempt.experimentId !in experiments { return RunRefused; }
      var receipt := Machine.ReceiptOf(nextReceipt, attempt, observation);
      receipts := receipts + [receipt];
      nextReceipt := nextReceipt + 1;
      r := Recorded(receipt);
    }
  }

  /** A key names the operation; without one the exchange does. */
  lemma OperationOf(d: Machine.Desk, id: nat, e: Machine.Experiment, key: Option<Text>, correlationId: Text)
    requires Ok(e.payload)
    ensures Machine.RequestFor(d, id, e, key, correlationId).operationId
        == OperationId(d.namespace, id, if key.Some? then key.value else correlationId)
  {
  }

  lemma NamespaceStays(d: Machine.Desk, a: Machine.Action)
    ensures Machine.Next(d, a).namespace == d.namespace
  {
  }
}

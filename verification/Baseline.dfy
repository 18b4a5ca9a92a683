/**
 The coordinator on its JSON-RPC transport (server/src/app.ts:104-198 without a runner): requests sent as
 text over a network that loses, delays and reorders, a dependency that keeps its cache in memory and
 may be restarted, and anything else that may answer in its place. Module DownstreamService is one
 lifetime of the dependency.
 */
module Baseline {
  import opened Wrappers
  import opened JsonNumber
  import opened JsonString
  import opened Json
  import opened Identity
  import opened Downstream
  import P = Protocol
  import C = Coordinator
  import D = DownstreamService

  type Id = Decimal

  /** A run request whose exchange has begun. */
  datatype Attempt = Attempt(experimentId: Id, key: Option<Text>, correlationId: Text, request: Request)

  /** How fetch ends: a response with its text, or an exception. */
  datatype Fetched = Response(status: nat, text: Text) | TimeoutError | OtherError

  /** `correlationId`, `call` and `life` are history: the exchange, and the lifetime of the dependency that answered. */
  datatype Receipt = Receipt(
    experimentId: Id,
    key: Option<Text>,
    correlationId: Text,
    outcome: P.Outcome,
    status: Option<nat>,
    errorCode: Option<Decimal>,
    body: Json,
    call: nat,
    life: Option<nat>)

  /**
   `archive` holds every experiment ever created and `calls` every attempt ever begun; `wire` holds the
   requests still on their way and `lives` the lifetimes of the dependency, the last being the present one.
   */
  datatype State = State(
    experiments: set<Id>,
    archive: map<Id, C.Experiment>,
    receipts: seq<Receipt>,
    inFlight: set<nat>,
    calls: map<nat, Attempt>,
    wire: map<nat, Text>,
    lives: seq<D.State>)

  datatype Action =
    | Create(id: Id, experiment: C.Experiment)
    | Delete(id: Id)
    | Begin(call: nat, id: Id, keyHeader: Option<Text>, correlationId: Text)
    | Deliver(call: nat, fields: Json)
    | Finish(work: nat, processedAt: Text)
    | Respond(call: nat)
    | Restart
    | Receive(call: nat, life: nat)
    | Intrude(call: nat, fetched: Fetched)
    | Abandon(call: nat)

  // ----- one exchange

  /** Only an object is kept as JSON; any other text is kept as it came. */
  function ReadBody(text: Text): Json {
    match Parse(text)
    case Some(Obj(ms)) => Obj(ms)
    case _ => Str(text)
  }

  predicate IsOk(status: nat) {
    200 <= status <= 299
  }

  /** A correlated RPC error counts whatever the status; anything else needs a successful one. */
  function Judge(status: nat, body: Json, correlationId: Text, id: Id): Verdict {
    var verdict := ClassifyRpc(body, Str(correlationId), Some(id));
    Verdict(if verdict.outcome == P.DownstreamError || IsOk(status) then verdict.outcome else P.DownstreamError,
      verdict.errorCode)
  }

  /** The receipt of an attempt, from what fetch returned or threw. */
  function ReceiptOf(a: Attempt, fetched: Fetched, call: nat, life: Option<nat>): Receipt {
    match fetched
    case Response(status, text) =>
      var v := Judge(status, ReadBody(text), a.correlationId, a.experimentId);
      Receipt(a.experimentId, a.key, a.correlationId, v.outcome, Some(status), v.errorCode, ReadBody(text), call, life)
    case _ =>
      Receipt(a.experimentId, a.key, a.correlationId, if fetched.TimeoutError? then P.Timeout else P.Unreachable, None,
        None, Null, call, life)
  }

  /** The handler's own steps from the response to the fields it stores. */
  method ReadResponse(a: Attempt, fetched: Fetched, call: nat, life: Option<nat>) returns (r: Receipt)
    ensures r == ReceiptOf(a, fetched, call, life)
  {
    if fetched.Response? {
      var body := Str(fetched.text);
      var parsed := Parse(fetched.text);
      if parsed.Some? && parsed.value.Obj? { body := parsed.value; }
      var classification := ClassifyRpc(body, Str(a.correlationId), Some(a.experimentId));
      var outcome := P.DownstreamError;
      if classification.outcome == P.DownstreamError || IsOk(fetched.status) { outcome := classification.outcome; }
      r := Receipt(a.experimentId, a.key, a.correlationId, outcome, Some(fetched.status), classification.errorCode,
          body,
        call, life);
    } else {
      r := Receipt(a.experimentId, a.key, a.correlationId, if fetched.TimeoutError? then P.Timeout else P.Unreachable,
        None, None, Null, call, life);
    }
  }

  /** What a stored outcome rests on: who answered, with what status, and exactly which body. */
  lemma OutcomeIsExact(a: Attempt, fetched: Fetched, call: nat, life: Option<nat>)
    ensures var r := ReceiptOf(a, fetched, call, life);
            var (result, error) := (P.Lookup(r.body, Ascii("result")), P.Lookup(r.body, Ascii("error")));
            var correlated := fetched.Response? && ForExchange(r.body, Str(a.correlationId));
            && (r.outcome == P.Timeout <==> fetched.TimeoutError?)
                && (r.outcome == P.Unreachable <==> fetched.OtherError?)
            && (r.outcome == P.Success <==>
                  correlated && 200 <= fetched.status <= 299 && result.Some? && error.None?
                  && IsAcceptance(result.value, Some(a.experimentId)))
            && (r.errorCode.Some? <==> correlated && error.Some? && result.None? && IsReport(error.value))
            && (r.outcome == P.DownstreamError <==>
                  fetched.Response? && (r.errorCode.Some? || !(200 <= fetched.status <= 299)))
    ensures fetched.Response? ==>
              var (body, parsed) := (ReceiptOf(a, fetched, call, life).body, Parse(fetched.text));
              body == if parsed.Some? && parsed.value.Obj? then parsed.value else Str(fetched.text)
  {
    hide IsAcceptance, IsReport, Parse;
    if fetched.Response? { VerdictIsExact(ReadBody(fetched.text), Str(a.correlationId), Some(a.experimentId)); }
  }

  // ----- what is sent can be printed

  lemma BuiltIsOk(r: Request, correlationId: Text)
    requires NumberOk(r.experimentId) && Ok(Obj(r.payload))
    ensures Ok(BuildRequest(r, Str(correlationId)))
  {
    KeysDiffer();
    ParamKeysDiffer();
    hide Ascii;
    assert DistinctKeys(Params(r).members);
    assert Ok(Params(r));
    assert DistinctKeys(BuildRequest(r, Str(correlationId)).members);
  }

  lemma SentIsOk(r: Request, processedAt: Text, correlationId: Text)
    requires NumberOk(r.experimentId) && Ok(Obj(r.payload))
    ensures Ok(Envelope(Execute(r, processedAt), Str(correlationId)))
  {
    KeysDiffer();
    ParamKeysDiffer();
    hide Ascii;
    var reply := Execute(r, processedAt);
    if reply.Error? {
      assert DistinctKeys(reply.data.value.members);
      assert DistinctKeys(ErrorObject(reply).members);
      assert Ok(ErrorObject(reply));
    } else if reply.value.Obj? {
      assert DistinctKeys(reply.value.members);
      assert Ok(reply.value);
    }
    assert DistinctKeys(Envelope(reply, Str(correlationId)).members);
  }

  // ----- steps

  predicate Creatable(id: Id, e: C.Experiment) {
    PositiveInt(id) && NumberOk(id) && e.payload.Obj? && Ok(e.payload)
  }

  function RequestOf(id: Id, e: C.Experiment, key: Option<Text>): Request
    requires e.payload.Obj?
  {
    Request(id, e.behavior, e.payload.members, key)
  }

  /** The newest receipt for the key is settled. */
  predicate Replays(rs: seq<Receipt>, id: Id, key: Text) {
    exists i :: 0 <= i < |rs| && ForKey(rs[i], id, key) && C.Settles(rs[i].outcome)
      && forall j :: i < j < |rs| ==> !ForKey(rs[j], id, key)
  }

  predicate ForKey(r: Receipt, id: Id, key: Text) {
    r.experimentId == id && r.key == Some(key)
  }

  function ReceiptsWithout(rs: seq<Receipt>, id: Id): (r: seq<Receipt>)
    ensures forall x :: x in r <==> x in rs && x.experimentId != id
  {
    if rs == [] then []
    else if rs[|rs| - 1].experimentId == id then ReceiptsWithout(rs[..|rs| - 1], id)
    else ReceiptsWithout(rs[..|rs| - 1], id) + [rs[|rs| - 1]]
  }

  /** The body a lifetime has sent for a call. */
  function BodyFor(life: D.State, call: nat): Option<Json> {
    if call in life.sent then Some(life.sent[call].body)
    else if call in life.refused then Some(life.refused[call])
    else None
  }

  function Present(s: State): D.State
    requires |s.lives| > 0
  {
    s.lives[|s.lives| - 1]
  }

  function InLife(s: State, a: D.Action): State
    requires |s.lives| > 0
  {
    s.(lives := s.lives[|s.lives| - 1 := D.Next(Present(s), a)])
  }

  function Begun(s: State, call: nat, id: Id, key: Option<Text>, correlationId: Text): State {
    if call in s.calls || id !in s.experiments || id !in s.archive || !Creatable(id, s.archive[id])
       || (key.Some? && Replays(s.receipts, id, key.value)) then s
    else
      var r := RequestOf(id, s.archive[id], key);
      BuiltIsOk(r, correlationId);
      s.(inFlight := s.inFlight + {call}, calls := s.calls[call := Attempt(id, key, correlationId, r)],
         wire := s.wire[call := Stringify(BuildRequest(r, Str(correlationId)))])
  }

  /** The receipt is stored unless the experiment has been deleted during the exchange. */
  function Recorded(s: State, call: nat, fetched: Fetched, life: Option<nat>): State {
    if call !in s.inFlight || call !in s.calls then s
    else
      var r := ReceiptOf(s.calls[call], fetched, call, life);
      s.(inFlight := s.inFlight - {call},
         receipts := if r.experimentId in s.experiments then s.receipts + [r] else s.receipts)
  }

  function Next(s: State, a: Action): (t: State)
    requires |s.lives| > 0
    ensures |t.lives| >= |s.lives|
  {
    match a
    case Create(id, e) =>
      if id in s.archive || !Creatable(id, e) then s
      else s.(experiments := s.experiments + {id}, archive := s.archive[id := e])
    case Delete(id) => s.(experiments := s.experiments - {id}, receipts := ReceiptsWithout(s.receipts, id))
    case Begin(call, id, keyHeader, correlationId) => Begun(s, call, id, ReadHeader(keyHeader, 80), correlationId)
    case Deliver(call, fields) =>
      if call !in s.wire || Parse(s.wire[call]).None? then s
      else InLife(s, D.Arrive(call, Parse(s.wire[call]).value, fields)).(wire := Without(s.wire, call))
    case Finish(n, processedAt) => InLife(s, D.Finish(n, processedAt))
    case Respond(call) => InLife(s, D.Respond(call))
    case Restart => s.(lives := s.lives + [D.INITIAL])
    case Receive(call, life) =>
      if life < |s.lives| && BodyFor(s.lives[life], call).Some? && Ok(BodyFor(s.lives[life], call).value)
      then Recorded(s, call, Response(200, Stringify(BodyFor(s.lives[life], call).value)), Some(life)) else s
    case Intrude(call, fetched) => Recorded(s, call, fetched, None)
    case Abandon(call) => s.(inFlight := s.inFlight - {call})
  }

  const START := State({}, map[], [], {}, map[], map[], [D.INITIAL])

  function Run(actions: seq<Action>): (s: State)
    ensures |s.lives| > 0
    decreases |actions|
  {
    if actions == [] then START else Next(Run(actions[..|actions| - 1]), actions[|actions| - 1])
  }

  // ----- the invariant

  /** The attempt was made for an experiment of the archive, as that experiment is. */
  ghost predicate AttemptOk(archive: map<Id, C.Experiment>, a: Attempt) {
    a.experimentId in archive && Creatable(a.experimentId, archive[a.experimentId])
    && a.request == RequestOf(a.experimentId, archive[a.experimentId], a.key) && RequestOk(a.request)
  }

  /** Work of the dependency: what it was asked, by the experiment's own description, and what it earned. */
  ghost predicate WorkOk(archive: map<Id, C.Experiment>, w: D.Work) {
    var id := w.request.experimentId;
    id in archive && Creatable(id, archive[id]) && w.request == RequestOf(id, archive[id], w.request.key)
    && RequestOk(w.request) && (w.reply.Some? ==> exists t :: w.reply.value == Execute(w.request, t))
  }

  /** The caller the dependency sees is the attempt the coordinator made. */
  ghost predicate CallerOk(calls: map<nat, Attempt>, c: nat, id: Json, r: Request) {
    c in calls && id == Str(calls[c].correlationId) && r == calls[c].request
  }

  /** The call has reached this lifetime of the dependency. */
  predicate Reached(life: D.State, c: nat) {
    c in life.waiting || c in life.sent
  }

  function WorkOf(life: D.State, c: nat): nat
    requires Reached(life, c)
  {
    if c in life.waiting then life.waiting[c].work else life.sent[c].work
  }

  /** No work starts without a call that waits for it. */
  ghost predicate Called(life: D.State, n: nat) {
    exists c :: Reached(life, c) && WorkOf(life, c) == n
  }

  ghost predicate CallersOk(calls: map<nat, Attempt>, life: D.State) {
    && (forall n :: 0 <= n < |life.works| ==> Called(life, n))
    && life.refused == map[] && life.waiting.Keys !! life.sent.Keys
    && (forall c :: c in life.waiting ==> CallerOk(calls, c, life.waiting[c].id, life.waiting[c].request))
    && (forall c :: c in life.sent ==> CallerOk(calls, c, life.sent[c].id, life.sent[c].request))
  }

  ghost predicate WorksOk(archive: map<Id, C.Experiment>, works: seq<D.Work>) {
    forall n :: 0 <= n < |works| ==> WorkOk(archive, works[n])
  }

  ghost predicate LifeOk(archive: map<Id, C.Experiment>, calls: map<nat, Attempt>, life: D.State) {
    D.Inv(life) && WorksOk(archive, life.works) && CallersOk(calls, life)
  }

  /** A request on the wire is the text of its attempt. */
  ghost predicate WireOk(calls: map<nat, Attempt>, wire: map<nat, Text>) {
    forall c :: c in wire ==>
      c in calls && Ok(BuildRequest(calls[c].request, Str(calls[c].correlationId)))
      && wire[c] == Stringify(BuildRequest(calls[c].request, Str(calls[c].correlationId)))
  }

  /** A receipt answered by the dependency holds the body that lifetime sent for the receipt's own call. */
  ghost predicate ReceiptOk(archive: map<Id, C.Experiment>, calls: map<nat, Attempt>, lives: seq<D.State>, r: Receipt) {
    && r.experimentId in archive && r.call in calls
    && r == Receipt(calls[r.call].experimentId, calls[r.call].key, calls[r.call].correlationId, r.outcome, r.status,
                    r.errorCode, r.body, r.call, r.life)
    && (r.status.Some? ==>
          Judge(r.status.value, r.body, r.correlationId, r.experimentId) == Verdict(r.outcome, r.errorCode))
    && (r.status.None? ==> r.life.None? && !C.Settles(r.outcome))
    && (r.life.Some? ==>
          && r.status == Some(200) && r.life.value < |lives|
          && r.call in lives[r.life.value].sent && lives[r.life.value].sent[r.call].body == r.body)
  }

  ghost predicate ReceiptsOk(archive: map<Id, C.Experiment>, calls: map<nat, Attempt>, lives: seq<D.State>,
      rs: seq<Receipt>) {
    forall i :: 0 <= i < |rs| ==> ReceiptOk(archive, calls, lives, rs[i])
  }

  ghost predicate LivesOk(archive: map<Id, C.Experiment>, calls: map<nat, Attempt>, lives: seq<D.State>) {
    |lives| > 0 && forall k :: 0 <= k < |lives| ==> LifeOk(archive, calls, lives[k])
  }

  ghost predicate CallsOk(archive: map<Id, C.Experiment>, calls: map<nat, Attempt>, inFlight: set<nat>) {
    inFlight <= calls.Keys && forall c :: c in calls ==> AttemptOk(archive, calls[c])
  }

  ghost predicate Inv(s: State) {
    && |s.lives| > 0 && s.experiments <= s.archive.Keys
    && LivesOk(s.archive, s.calls, s.lives) && WireOk(s.calls, s.wire) && CallsOk(s.archive, s.calls, s.inFlight)
    && ReceiptsOk(s.archive, s.calls, s.lives, s.receipts)
  }

  // ----- every step keeps it

  /** Experiments and attempts are only ever added. */
  ghost predicate Grows(s: State, t: State) {
    && (forall id :: id in s.archive ==> id in t.archive && t.archive[id] == s.archive[id])
    && (forall c :: c in s.calls ==> c in t.calls && t.calls[c] == s.calls[c])
  }

  /** What a lifetime has sent stays sent. */
  ghost predicate SentStays(life: D.State, later: D.State) {
    forall c :: c in life.sent ==> c in later.sent && later.sent[c] == life.sent[c]
  }

  /** A request of this coordinator is never refused: it joins the work for its key, or starts one. */
  lemma ArrivalJoins(life: D.State, call: nat, a: Attempt, fields: Json)
    requires RequestOk(a.request)
    ensures D.Next(life, D.Arrive(call, BuildRequest(a.request, Str(a.correlationId)), fields))
            == if D.Known(life, call) then life else D.Join(life, call, Str(a.correlationId), a.request)
  {
    RequestReadsBack(a.request, Str(a.correlationId), fields);
    hide BuildRequest, ReadCall, D.Join;
  }

  lemma JoinedWorks(archive: map<Id, C.Experiment>, life: D.State, call: nat, id: Json, r: Request)
    requires NumberOk(r.experimentId) && WorksOk(archive, life.works) && WorkOk(archive, D.Work(r, None))
    ensures WorksOk(archive, D.Join(life, call, id, r).works)
  {
    hide WorkOk, CacheKey;
  }

  lemma JoinedCallers(calls: map<nat, Attempt>, life: D.State, call: nat, id: Json, r: Request)
    requires NumberOk(r.experimentId) && CallersOk(calls, life) && !D.Known(life, call) && CallerOk(calls, call, id, r)
    ensures CallersOk(calls, D.Join(life, call, id, r)) && D.Join(life, call, id, r).sent == life.sent
  {
    hide CallerOk, CacheKey;
    var later := D.Join(life, call, id, r);
    forall k | 0 <= k < |later.works| ensures Called(later, k) {
      if k < |life.works| {
        assert Called(life, k);
      var c :| Reached(life, c) && WorkOf(life, c) == k;
        assert Reached(later, c) && WorkOf(later, c) == k;
      } else {
        assert Reached(later, call) && WorkOf(later, call) == k;
      }
    }
  }

  lemma NewWork(archive: map<Id, C.Experiment>, a: Attempt)
    requires AttemptOk(archive, a)
    ensures WorkOk(archive, D.Work(a.request, None)) && RequestOk(a.request) && NumberOk(a.request.experimentId)
  {
    hide PositiveInt, Ok;
  }

  lemma ArriveKeepsLife(s: State, life: D.State, call: nat, fields: Json)
    requires LifeOk(s.archive, s.calls, life) && call in s.calls && AttemptOk(s.archive, s.calls[call])
    ensures var a := s.calls[call];
            var later := D.Next(life, D.Arrive(call, BuildRequest(a.request, Str(a.correlationId)), fields));
            LifeOk(s.archive, s.calls, later) && SentStays(life, later)
  {
    var a := s.calls[call];
    D.NextKeepsInv(life, D.Arrive(call, BuildRequest(a.request, Str(a.correlationId)), fields));
    NewWork(s.archive, a);
    ArrivalJoins(life, call, a, fields);
    SentItself(life);
    hide AttemptOk, D.Inv, D.Next, D.Join, WorksOk, WorkOk, CallersOk, BuildRequest, RequestOk, NumberOk, D.Known;
    if !D.Known(life, call) {
      JoinedWorks(s.archive, life, call, Str(a.correlationId), a.request);
      JoinedCallers(s.calls, life, call, Str(a.correlationId), a.request);
    }
  }

  lemma FinishedWorks(archive: map<Id, C.Experiment>, life: D.State, n: nat, processedAt: Text)
    requires WorksOk(archive, life.works)
    ensures WorksOk(archive, D.Next(life, D.Finish(n, processedAt)).works)
  {
    var later := D.Next(life, D.Finish(n, processedAt));
    hide RequestOf, RequestOk, Execute, Creatable;
    forall k | 0 <= k < |later.works| ensures WorkOk(archive, later.works[k]) { assert WorkOk(archive, life.works[k]); }
  }

  lemma FinishedCallers(calls: map<nat, Attempt>, life: D.State, n: nat, processedAt: Text)
    requires CallersOk(calls, life)
    ensures var later := D.Next(life, D.Finish(n, processedAt)); CallersOk(calls, later) && SentStays(life, later)
  {
    hide CallerOk, Execute;
    var later := D.Next(life, D.Finish(n, processedAt));
    forall k | 0 <= k < |later.works| ensures Called(later, k) {
      assert Called(life, k);
      var c :| Reached(life, c) && WorkOf(life, c) == k;
      assert Reached(later, c) && WorkOf(later, c) == k;
    }
  }

  lemma FinishKeepsLife(s: State, life: D.State, n: nat, processedAt: Text)
    requires LifeOk(s.archive, s.calls, life)
    ensures var later := D.Next(life, D.Finish(n, processedAt));
            LifeOk(s.archive, s.calls, later) && SentStays(life, later)
  {
    D.NextKeepsInv(life, D.Finish(n, processedAt));
    FinishedWorks(s.archive, life, n, processedAt);
    FinishedCallers(s.calls, life, n, processedAt);
    hide D.Inv, D.Next, WorksOk, CallersOk, SentStays;
  }

  lemma RespondedCallers(calls: map<nat, Attempt>, life: D.State, call: nat)
    requires CallersOk(calls, life)
    ensures CallersOk(calls, D.Next(life, D.Respond(call))) && SentStays(life, D.Next(life, D.Respond(call)))
    ensures D.Next(life, D.Respond(call)).works == life.works
  {
    hide CallerOk, Envelope;
    var later := D.Next(life, D.Respond(call));
    forall k | 0 <= k < |later.works| ensures Called(later, k) {
      assert Called(life, k);
      var c :| Reached(life, c) && WorkOf(life, c) == k;
      assert Reached(later, c) && WorkOf(later, c) == k;
    }
  }

  lemma RespondKeepsLife(s: State, life: D.State, call: nat)
    requires LifeOk(s.archive, s.calls, life)
    ensures var later := D.Next(life, D.Respond(call));
            LifeOk(s.archive, s.calls, later) && SentStays(life, later)
  {
    D.NextKeepsInv(life, D.Respond(call));
    RespondedCallers(s.calls, life, call);
    hide D.Inv, D.Next, WorksOk, CallersOk, SentStays;
  }

  lemma GrownLife(s: State, t: State, life: D.State)
    requires LifeOk(s.archive, s.calls, life) && Grows(s, t)
    ensures LifeOk(t.archive, t.calls, life)
  {
    hide D.Inv, RequestOf, RequestOk, Execute, Creatable;
  }

  lemma GrownReceipts(s: State, t: State)
    requires ReceiptsOk(s.archive, s.calls, s.lives, s.receipts) && Grows(s, t)
    requires forall r :: r in t.receipts ==> r in s.receipts
    requires |s.lives| <= |t.lives| && forall k :: 0 <= k < |s.lives| ==> SentStays(s.lives[k], t.lives[k])
    ensures ReceiptsOk(t.archive, t.calls, t.lives, t.receipts)
  {
    hide Judge;
    forall i | 0 <= i < |t.receipts| ensures ReceiptOk(t.archive, t.calls, t.lives, t.receipts[i]) {
      assert t.receipts[i] in s.receipts;
      var j :| 0 <= j < |s.receipts| && s.receipts[j] == t.receipts[i];
      assert ReceiptOk(s.archive, s.calls, s.lives, s.receipts[j]);
    }
  }

  /** A step at the coordinator's side: the lifetimes stay as they are. */
  lemma DeskKeepsInv(s: State, t: State)
    requires Inv(s) && Grows(s, t) && t.lives == s.lives && t.experiments <= t.archive.Keys
    requires WireOk(t.calls, t.wire) && CallsOk(t.archive, t.calls, t.inFlight) && forall r :: r in t.receipts ==>
        r in s.receipts
    ensures Inv(t)
  {
    hide LifeOk, WireOk, CallsOk, ReceiptsOk;
    forall k | 0 <= k < |t.lives| ensures LifeOk(t.archive, t.calls, t.lives[k]) { GrownLife(s, t, s.lives[k]); }
    hide SentStays;
    forall k | 0 <= k < |s.lives| ensures SentStays(s.lives[k], t.lives[k]) { SentItself(s.lives[k]); }
    GrownReceipts(s, t);
  }

  lemma SentItself(life: D.State)
    ensures SentStays(life, life)
  {
  }

  lemma LivesReplaced(archive: map<Id, C.Experiment>, calls: map<nat, Attempt>, lives: seq<D.State>, later: D.State)
    requires LivesOk(archive, calls, lives) && LifeOk(archive, calls, later)
    requires SentStays(lives[|lives| - 1], later)
    ensures var t := lives[|lives| - 1 := later];
            LivesOk(archive, calls, t) && forall k :: 0 <= k < |lives| ==> SentStays(lives[k], t[k])
  {
    hide LifeOk, SentStays;
    forall k | 0 <= k < |lives| - 1 ensures SentStays(lives[k], lives[k]) { SentItself(lives[k]); }
  }

  /** A step of the dependency in its present lifetime. */
  lemma LifeStepKeepsInv(s: State, later: D.State)
    requires Inv(s) && LifeOk(s.archive, s.calls, later) && SentStays(Present(s), later)
    ensures Inv(s.(lives := s.lives[|s.lives| - 1 := later]))
  {
    LivesReplaced(s.archive, s.calls, s.lives, later);
    hide LifeOk, LivesOk, WireOk, CallsOk, ReceiptsOk, SentStays;
    GrownReceipts(s, s.(lives := s.lives[|s.lives| - 1 := later]));
  }

  lemma RestartKeepsInv(s: State)
    requires Inv(s)
    ensures Inv(s.(lives := s.lives + [D.INITIAL]))
  {
    var t := s.(lives := s.lives + [D.INITIAL]);
    D.InitialInv();
    assert LifeOk(s.archive, s.calls, D.INITIAL) by { hide D.Inv; }
    hide LifeOk, WireOk, ReceiptsOk, AttemptOk, SentStays;
    forall k | 0 <= k < |s.lives| ensures SentStays(s.lives[k], t.lives[k]) { SentItself(s.lives[k]); }
    GrownReceipts(s, t);
  }

  lemma CreateKeepsInv(s: State, id: Id, e: C.Experiment)
    requires Inv(s)
    ensures Inv(Next(s, Create(id, e)))
  {
    hide LivesOk, ReceiptsOk, Creatable, RequestOf, RequestOk, BuildRequest;
    DeskKeepsInv(s, Next(s, Create(id, e)));
  }

  lemma NewAttempt(archive: map<Id, C.Experiment>, id: Id, key: Option<Text>, correlationId: Text)
    requires id in archive && Creatable(id, archive[id]) && (key.Some? ==> 1 <= |key.value| <= 80)
    ensures AttemptOk(archive, Attempt(id, key, correlationId, RequestOf(id, archive[id], key)))
  {
    hide PositiveInt, Ok;
  }

  lemma BegunWire(calls: map<nat, Attempt>, wire: map<nat, Text>, call: nat, a: Attempt)
    requires WireOk(calls, wire) && call !in calls && Ok(BuildRequest(a.request, Str(a.correlationId)))
    ensures WireOk(calls[call := a], wire[call := Stringify(BuildRequest(a.request, Str(a.correlationId)))])
  {
    hide BuildRequest, Ok, Stringify;
  }

  lemma BegunCalls(archive: map<Id, C.Experiment>, calls: map<nat, Attempt>, inFlight: set<nat>, call: nat, a: Attempt)
    requires CallsOk(archive, calls, inFlight) && AttemptOk(archive, a)
    ensures CallsOk(archive, calls[call := a], inFlight + {call})
  {
    hide AttemptOk;
  }

  lemma AttemptKeepsInv(s: State, call: nat, a: Attempt)
    requires Inv(s) && call !in s.calls && AttemptOk(s.archive, a) && Ok(BuildRequest(a.request, Str(a.correlationId)))
    ensures Inv(s.(inFlight := s.inFlight + {call}, calls := s.calls[call := a],
                   wire := s.wire[call := Stringify(BuildRequest(a.request, Str(a.correlationId)))]))
  {
    hide LivesOk, ReceiptsOk, WireOk, CallsOk, AttemptOk, BuildRequest, Ok, Stringify;
    BegunWire(s.calls, s.wire, call, a);
    BegunCalls(s.archive, s.calls, s.inFlight, call, a);
    var t := s.(inFlight := s.inFlight + {call}, calls := s.calls[call := a],
                wire := s.wire[call := Stringify(BuildRequest(a.request, Str(a.correlationId)))]);
    assert Grows(s, t);
    hide Grows;
    DeskKeepsInv(s, t);
  }

  lemma BeginKeepsInv(s: State, call: nat, id: Id, key: Option<Text>, correlationId: Text)
    requires Inv(s) && (key.Some? ==> 1 <= |key.value| <= 80)
    ensures Inv(Begun(s, call, id, key, correlationId))
  {
    if Begun(s, call, id, key, correlationId) != s {
      var r := RequestOf(id, s.archive[id], key);
      NewAttempt(s.archive, id, key, correlationId);
      BuiltIsOk(r, correlationId);
      hide Inv, AttemptOk, BuildRequest, RequestOf, PositiveInt, NumberOk, Replays;
      AttemptKeepsInv(s, call, Attempt(id, key, correlationId, r));
    }
  }

  lemma DeleteKeepsInv(s: State, id: Id)
    requires Inv(s)
    ensures Inv(Next(s, Delete(id)))
  {
    hide LivesOk, ReceiptsOk, WireOk, CallsOk;
    DeskKeepsInv(s, Next(s, Delete(id)));
  }

  /** A receipt is appended and its attempt leaves. */
  lemma AppendKeepsInv(s: State, r: Receipt)
    requires Inv(s) && ReceiptOk(s.archive, s.calls, s.lives, r)
    ensures Inv(s.(receipts := s.receipts + [r]))
  {
    hide LivesOk, WireOk, CallsOk, ReceiptOk;
  }

  lemma LeaveKeepsInv(s: State, call: nat)
    requires Inv(s)
    ensures Inv(s.(inFlight := s.inFlight - {call}))
  {
    hide LivesOk, WireOk, ReceiptsOk, AttemptOk;
  }

  lemma RecordedKeepsInv(s: State, call: nat, fetched: Fetched, life: Option<nat>)
    requires Inv(s)
    requires call in s.inFlight && call in s.calls && life.Some? ==>
      ReceiptOk(s.archive, s.calls, s.lives, ReceiptOf(s.calls[call], fetched, call, life))
    ensures Inv(Recorded(s, call, fetched, life))
  {
    if call in s.inFlight && call in s.calls {
      var r := ReceiptOf(s.calls[call], fetched, call, life);
      if life.None? { IntrudedReceipt(s, call, fetched); }
      hide Inv, ReceiptOf, ReceiptOk;
      LeaveKeepsInv(s, call);
      var t := s.(inFlight := s.inFlight - {call});
      if r.experimentId in s.experiments { AppendKeepsInv(t, r); }
    }
  }

  lemma IntrudedReceipt(s: State, call: nat, fetched: Fetched)
    requires Inv(s) && call in s.calls
    ensures ReceiptOk(s.archive, s.calls, s.lives, ReceiptOf(s.calls[call], fetched, call, None))
  {
    hide LivesOk, WireOk, ReceiptsOk, Judge, ReadBody, RequestOf, RequestOk, Creatable;
    assert AttemptOk(s.archive, s.calls[call]);
  }

  /** What the dependency has sent for a call reads back at the coordinator as it was sent. */
  lemma SentReadsBack(s: State, life: D.State, call: nat)
    requires LifeOk(s.archive, s.calls, life) && BodyFor(life, call).Some?
    requires call in s.calls && AttemptOk(s.archive, s.calls[call])
    ensures var body := BodyFor(life, call).value;
            call in life.sent && Ok(body) && ReadBody(Stringify(body)) == body
  {
    var c := life.sent[call];
    SentIsEarned(s, life, call);
    hide LifeOk, AttemptOk, Envelope, Execute, Ok;
    EarnedReadsBack(s.calls[call], c.body);
  }

  /** The body is what the attempt's own request earns, under the attempt's own id. */
  ghost predicate Earns(a: Attempt, body: Json) {
    exists t :: body == Envelope(Execute(a.request, t), Str(a.correlationId))
  }

  lemma EarnedReadsBack(a: Attempt, body: Json)
    requires RequestOk(a.request) && Earns(a, body)
    ensures Ok(body) && ReadBody(Stringify(body)) == body
  {
    hide Execute;
    var t :| body == Envelope(Execute(a.request, t), Str(a.correlationId));
    SentIsOk(a.request, t, a.correlationId);
    ParseStringify(body);
  }

  /** Experiments never change, so two requests for one operation are the same request. */
  lemma OneRequest(archive: map<Id, C.Experiment>, a: Attempt, w: D.Work)
    requires AttemptOk(archive, a) && WorkOk(archive, w)
    requires D.SameOperation(a.request, w.request) || w.request == a.request
    ensures w.request == a.request && RequestOk(a.request)
  {
    hide Creatable, RequestOk, Execute;
  }

  lemma SentIsEarned(s: State, life: D.State, call: nat)
    requires LifeOk(s.archive, s.calls, life) && call in life.sent && call in s.calls
    requires AttemptOk(s.archive, s.calls[call])
    ensures Earns(s.calls[call], life.sent[call].body) && RequestOk(s.calls[call].request)
  {
    hide AttemptOk, Envelope, Execute, RequestOk, RequestOf, D.CacheOk;
    var (c, a) := (life.sent[call], s.calls[call]);
    assert D.Serves(life.works, c.work, c.request, c.id) && D.Resolved(life.works, c.work, c.body, c.id);
    assert WorkOk(s.archive, life.works[c.work]) && CallerOk(s.calls, call, c.id, c.request);
    OneRequest(s.archive, a, life.works[c.work]);
  }

  lemma DeliverKeepsInv(s: State, call: nat, fields: Json)
    requires Inv(s)
    ensures Inv(Next(s, Deliver(call, fields)))
  {
    if call in s.wire {
      var a := s.calls[call];
      var body := BuildRequest(a.request, Str(a.correlationId));
      ParseStringify(body);
      ArriveKeepsLife(s, Present(s), call, fields);
      hide LifeOk, LivesOk, CallsOk, ReceiptsOk, SentStays, BuildRequest, AttemptOk, D.Next, Parse, Stringify, Ok;
      LifeStepKeepsInv(s, D.Next(Present(s), D.Arrive(call, body, fields)));
    }
  }

  lemma ReceivedReceipt(s: State, call: nat, life: nat)
    requires Inv(s) && call in s.calls && life < |s.lives| && BodyFor(s.lives[life], call).Some?
    ensures Ok(BodyFor(s.lives[life], call).value)
    ensures ReceiptOk(s.archive, s.calls, s.lives,
        ReceiptOf(s.calls[call], Response(200, Stringify(BodyFor(s.lives[life], call).value)), call, Some(life)))
  {
    assert AttemptOk(s.archive, s.calls[call]);
    SentReadsBack(s, s.lives[life], call);
    hide Inv, LifeOk, Judge, RequestOf, RequestOk, Creatable, Ok, ReadBody, Stringify;
  }

  lemma ReceiveKeepsInv(s: State, call: nat, life: nat)
    requires Inv(s)
    ensures Inv(Next(s, Receive(call, life)))
  {
    if life < |s.lives| && BodyFor(s.lives[life], call).Some? && call in s.calls {
      ReceivedReceipt(s, call, life);
      hide LifeOk, LivesOk, WireOk, CallsOk, ReceiptsOk, ReceiptOf, ReceiptOk, Recorded, BodyFor, Ok, Stringify;
      RecordedKeepsInv(s, call, Response(200, Stringify(BodyFor(s.lives[life], call).value)), Some(life));
    }
  }

  lemma KeyLength(header: Option<Text>)
    ensures ReadHeader(header, 80).Some? ==> 1 <= |ReadHeader(header, 80).value| <= 80
  {
  }

  lemma NextKeepsInv(s: State, a: Action)
    requires Inv(s)
    ensures Inv(Next(s, a))
  {
    match a
    case Create(id, e) => CreateKeepsInv(s, id, e);
    case Delete(id) => DeleteKeepsInv(s, id);
    case Begin(call, id, keyHeader, correlationId) =>
      KeyLength(keyHeader);
      BeginKeepsInv(s, call, id, ReadHeader(keyHeader, 80), correlationId);
    case Deliver(call, fields) => DeliverKeepsInv(s, call, fields);
    case Finish(n, processedAt) => DependencyKeepsInv(s, D.Finish(n, processedAt));
    case Respond(call) => DependencyKeepsInv(s, D.Respond(call));
    case Restart => RestartKeepsInv(s);
    case Receive(call, life) => ReceiveKeepsInv(s, call, life);
    case Intrude(call, fetched) => RecordedKeepsInv(s, call, fetched, None);
    case Abandon(call) => LeaveKeepsInv(s, call);
  }

  lemma DependencyKeepsInv(s: State, a: D.Action)
    requires Inv(s) && !a.Arrive?
    ensures Inv(InLife(s, a))
  {
    match a {
      case Finish(n, processedAt) => FinishKeepsLife(s, Present(s), n, processedAt);
      case Respond(call) => RespondKeepsLife(s, Present(s), call);
    }
    hide LifeOk, LivesOk, WireOk, CallsOk, ReceiptsOk, SentStays, D.Next;
    LifeStepKeepsInv(s, D.Next(Present(s), a));
  }

  lemma StartInv()
    ensures Inv(START)
  {
    D.InitialInv();
    hide D.Inv;
  }

  lemma {:induction false} RunKeepsInv(actions: seq<Action>)
    ensures Inv(Run(actions))
    decreases |actions|
  {
    hide Inv, Next;
    if actions == [] {
      StartInv();
    } else {
      RunKeepsInv(actions[..|actions| - 1]);
      NextKeepsInv(Run(actions[..|actions| - 1]), actions[|actions| - 1]);
    }
  }

  // ----- what the receipts of a whole run say

  lemma EveryReceiptOk(s: State, r: Receipt)
    requires Inv(s) && r in s.receipts
    ensures ReceiptOk(s.archive, s.calls, s.lives, r) && AttemptOk(s.archive, s.calls[r.call])
    ensures r.life.Some? ==> LifeOk(s.archive, s.calls, s.lives[r.life.value])
  {
    hide LifeOk, WireOk, AttemptOk, Judge;
    var i :| 0 <= i < |s.receipts| && s.receipts[i] == r;
    assert ReceiptOk(s.archive, s.calls, s.lives, s.receipts[i]);
  }

  /**
   Whatever is lost, delayed, reordered or restarted, a receipt the dependency answered has the outcome
   and the error code its own experiment calls for.
   */
  lemma ReceiptsAreHonest(actions: seq<Action>, r: Receipt)
    requires r in Run(actions).receipts && r.life.Some?
    ensures r.experimentId in Run(actions).archive
    ensures var b := Run(actions).archive[r.experimentId].behavior;
            r.outcome == P.Expected(b)
            && r.errorCode == if b.Unavailable? then Some(DEPENDENCY_UNAVAILABLE) else None
  {
    RunKeepsInv(actions);
    var s := Run(actions);
    EveryReceiptOk(s, r);
    SentIsEarned(s, s.lives[r.life.value], r.call);
    EarnedIsExpected(s.calls[r.call], r.body);
    hide Run, Inv, LifeOk, Earns, ClassifyRpc, RequestOk, Creatable;
  }

  lemma EarnedIsExpected(a: Attempt, body: Json)
    requires RequestOk(a.request) && Earns(a, body) && a.experimentId == a.request.experimentId
    ensures Judge(200, body, a.correlationId, a.experimentId)
        == Verdict(P.Expected(a.request.behavior),
                   if a.request.behavior.Unavailable? then Some(DEPENDENCY_UNAVAILABLE) else None)
  {
    hide Execute, Envelope, RequestOk, ClassifyRpc;
    var t :| body == Envelope(Execute(a.request, t), Str(a.correlationId));
    ReplyClassified(a.request, t, Str(a.correlationId));
  }

  /**
   Whoever answered, a success rests on a successful status and a correlated result for the receipt's own
   experiment, and an error code on a correlated error.
   */
  lemma SuccessIsBacked(actions: seq<Action>, r: Receipt)
    requires r in Run(actions).receipts
    ensures r.outcome == P.Success ==>
              && r.status.Some? && 200 <= r.status.value <= 299 && ForExchange(r.body, Str(r.correlationId))
              && P.Lookup(r.body, Ascii("error")).None? && r.errorCode.None?
              && var result := P.Lookup(r.body, Ascii("result"));
                 result.Some? && IsAcceptance(result.value, Some(r.experimentId))
    ensures r.status.Some? && r.errorCode.Some? ==>
              ForExchange(r.body, Str(r.correlationId)) && r.outcome == P.DownstreamError
              && var error := P.Lookup(r.body, Ascii("error"));
                 error.Some? && P.Lookup(error.value, Ascii("code")) == Some(Num(r.errorCode.value))
  {
    RunKeepsInv(actions);
    hide Run, Inv, LifeOk, AttemptOk, IsAcceptance, IsReport, ClassifyRpc;
    EveryReceiptOk(Run(actions), r);
    if r.status.Some? {
      VerdictIsExact(r.body, Str(r.correlationId), Some(r.experimentId));
      assert Judge(r.status.value, r.body, r.correlationId, r.experimentId) == Verdict(r.outcome, r.errorCode);
    }
  }

  /**
   Within one lifetime of the dependency all its answers for one experiment and key are one reply, each
   under its own caller's id, and all their receipts agree.
   */
  lemma AttemptsShareOneReply(actions: seq<Action>, r1: Receipt, r2: Receipt)
    requires r1 in Run(actions).receipts && r2 in Run(actions).receipts && r1.life.Some? && r1.life == r2.life
    requires r1.key.Some? && r1.key == r2.key && r1.experimentId == r2.experimentId
    ensures exists reply ::
        r1.body == Envelope(reply, Str(r1.correlationId)) && r2.body == Envelope(reply, Str(r2.correlationId))
    ensures r1.outcome == r2.outcome && r1.errorCode == r2.errorCode
  {
    RunKeepsInv(actions);
    ReceiptsAreHonest(actions, r1);
    ReceiptsAreHonest(actions, r2);
    var s := Run(actions);
    EveryReceiptOk(s, r1);
    EveryReceiptOk(s, r2);
    hide Run, Inv, D.Inv, WorksOk, Envelope, Judge, Creatable, RequestOk;
    var life := s.lives[r1.life.value];
    assert CallerOk(s.calls, r1.call, life.sent[r1.call].id, life.sent[r1.call].request);
    assert CallerOk(s.calls, r2.call, life.sent[r2.call].id, life.sent[r2.call].request);
    D.SharedReply(life, r1.call, r2.call);
    assert life.sent[r1.call].body == r1.body && life.sent[r2.call].body == r2.body;
  }

  // ----- which requests are sent, and what deletion leaves

  /**
   A request for an existing experiment is not sent if and only if it has a key whose newest receipt is a
   success, a failure of the work or an invalid response.
   */
  lemma OnlySettledKeysAreReplayed(s: State, call: nat, id: Id, header: Option<Text>, correlationId: Text)
    requires Inv(s) && id in s.experiments && call !in s.calls && Creatable(id, s.archive[id])
    ensures var (t, key) := (Next(s, Begin(call, id, header, correlationId)), ReadHeader(header, 80));
            && t.receipts == s.receipts
            && (call !in t.calls <==> key.Some? && exists i: nat ::
                  i < |s.receipts| && ForKey(s.receipts[i], id, key.value)
                  && s.receipts[i].outcome in {P.Success, P.DownstreamError, P.InvalidResponse}
                  && forall j :: i < j < |s.receipts| ==> !ForKey(s.receipts[j], id, key.value))
  {
    hide LivesOk, WireOk, CallsOk, ReceiptsOk, Creatable, ReadHeader, RequestOf, BuildRequest, Stringify, ForKey;
  }

  ghost predicate Deleted(s: State, id: Id) {
    id in s.archive && id !in s.experiments && forall r :: r in s.receipts ==> r.experimentId != id
  }

  /** A deleted experiment never returns, and no answer that arrives later leaves a receipt for it. */
  lemma {:induction false} DeletedForEver(before: seq<Action>, id: Id, after: seq<Action>)
    requires id in Run(before).archive
    ensures Deleted(Run(before + [Delete(id)] + after), id)
    decreases |after|
  {
    hide Next, Deleted;
    var t := before + [Delete(id)];
    if after == [] {
      RunOne(before, Delete(id));
      assert t + after == t;
      DeletesAll(Run(before), id);
    } else {
      var most, last := after[..|after| - 1], after[|after| - 1];
      assert t + after == (t + most) + [last];
      DeletedForEver(before, id, most);
      RunOne(t + most, last);
      DeletedStays(Run(t + most), last, id);
    }
  }

  lemma DeletesAll(s: State, id: Id)
    requires |s.lives| > 0 && id in s.archive
    ensures Deleted(Next(s, Delete(id)), id)
  {
  }

  lemma DeletedStays(s: State, a: Action, id: Id)
    requires |s.lives| > 0 && Deleted(s, id)
    ensures Deleted(Next(s, a), id)
  {
    hide D.Next, Creatable, Replays, Judge, ReadHeader, RequestOf, BuildRequest, Stringify, Parse, Ok, BodyFor, Ascii;
  }

  // ----- how often the work runs

  /** Work `n` of lifetime `k` is for this experiment and key. */
  ghost predicate Executes(s: State, k: nat, n: nat, id: Id, key: Text) {
    k < |s.lives| && n < |s.lives[k].works|
    && s.lives[k].works[n].request.experimentId == id && s.lives[k].works[n].request.key == Some(key)
  }

  /** A call for this experiment and key has reached lifetime `k`. */
  ghost predicate Reaches(s: State, k: nat, c: nat, id: Id, key: Text) {
    k < |s.lives| && Reached(s.lives[k], c) && c in s.calls
    && s.calls[c].experimentId == id && s.calls[c].key == Some(key)
  }

  lemma OncePerLife(s: State, k: nat, m: nat, n: nat, id: Id, key: Text)
    requires Inv(s) && Executes(s, k, m, id, key) && Executes(s, k, n, id, key)
    ensures m == n
  {
    hide WireOk, CallsOk, ReceiptsOk, WorksOk, CallersOk, D.CallsOk, D.CacheOk;
    assert LifeOk(s.archive, s.calls, s.lives[k]);
    D.WorkIsUnique(s.lives[k], m, n);
  }

  /** A call and the work it waits for are for the same experiment and key. */
  lemma CallOfWork(s: State, k: nat, c: nat)
    requires Inv(s) && k < |s.lives| && Reached(s.lives[k], c)
    ensures var n := WorkOf(s.lives[k], c);
            && c in s.calls && n < |s.lives[k].works|
            && s.lives[k].works[n].request.experimentId == s.calls[c].experimentId
            && s.lives[k].works[n].request.key == s.calls[c].key
  {
    hide WireOk, ReceiptsOk, WorksOk, D.CacheOk, Creatable, RequestOk, Envelope;
    var life := s.lives[k];
    assert LifeOk(s.archive, s.calls, life);
    if c in life.waiting {
      assert D.Serves(life.works, life.waiting[c].work, life.waiting[c].request, life.waiting[c].id);
      assert CallerOk(s.calls, c, life.waiting[c].id, life.waiting[c].request);
    } else {
      assert D.Serves(life.works, life.sent[c].work, life.sent[c].request, life.sent[c].id);
      assert CallerOk(s.calls, c, life.sent[c].id, life.sent[c].request);
    }
    assert AttemptOk(s.archive, s.calls[c]);
  }

  lemma CallerOfWork(s: State, k: nat, n: nat) returns (c: nat)
    requires Inv(s) && k < |s.lives| && n < |s.lives[k].works|
    ensures Reached(s.lives[k], c) && WorkOf(s.lives[k], c) == n
  {
    hide WireOk, CallsOk, ReceiptsOk, WorksOk, D.Inv, CallerOk;
    assert LifeOk(s.archive, s.calls, s.lives[k]);
    assert Called(s.lives[k], n);
    c :| Reached(s.lives[k], c) && WorkOf(s.lives[k], c) == n;
  }

  ghost predicate ExecutedOnce(s: State, id: Id, key: Text) {
    forall j: nat, k: nat, m: nat, n: nat :: Executes(s, j, m, id, key) && Executes(s, k, n, id, key) ==>
        j == k && m == n
  }

  ghost predicate ReachesOneLife(s: State, id: Id, key: Text) {
    forall j: nat, k: nat, c: nat, d: nat :: Reaches(s, j, c, id, key) && Reaches(s, k, d, id, key) ==> j == k
  }

  /**
   An experiment and key is executed at most once over a whole run if and only if no two lifetimes of the
   dependency are reached by requests for it. The cache is in memory: within a lifetime work never runs
   twice, and after a restart the next request runs it again.
   */
  lemma ExecutedOnceIffReachedOnce(actions: seq<Action>, id: Id, key: Text)
    ensures ExecutedOnce(Run(actions), id, key) <==> ReachesOneLife(Run(actions), id, key)
  {
    RunKeepsInv(actions);
    hide Run, Inv, ExecutedOnce, ReachesOneLife;
    OnceIfOneLife(Run(actions), id, key);
  }

  lemma OnceIfOneLife(s: State, id: Id, key: Text)
    requires Inv(s)
    ensures ExecutedOnce(s, id, key) <==> ReachesOneLife(s, id, key)
  {
    hide Inv, Executes, Reaches;
    if ReachesOneLife(s, id, key) {
      forall j: nat, k: nat, m: nat, n: nat | Executes(s, j, m, id, key) && Executes(s, k, n, id, key)
        ensures j == k && m == n
      {
        var c := ReachedByCall(s, j, m, id, key);
        var d := ReachedByCall(s, k, n, id, key);
        OncePerLife(s, j, m, if j == k then n else m, id, key);
      }
    }
    if ExecutedOnce(s, id, key) {
      forall j: nat, k: nat, c: nat, d: nat | Reaches(s, j, c, id, key) && Reaches(s, k, d, id, key) ensures j == k {
        var m := ExecutesForCall(s, j, c, id, key);
        var n := ExecutesForCall(s, k, d, id, key);
      }
    }
  }

  lemma ReachedByCall(s: State, k: nat, n: nat, id: Id, key: Text) returns (c: nat)
    requires Inv(s) && Executes(s, k, n, id, key)
    ensures Reaches(s, k, c, id, key)
  {
    c := CallerOfWork(s, k, n);
    CallOfWork(s, k, c);
  }

  lemma ExecutesForCall(s: State, k: nat, c: nat, id: Id, key: Text) returns (n: nat)
    requires Inv(s) && Reaches(s, k, c, id, key)
    ensures Executes(s, k, n, id, key)
  {
    CallOfWork(s, k, c);
    n := WorkOf(s.lives[k], c);
  }

  // ----- a restart runs the work again

  function Asking(s: State, id: Id, key: Text, correlationId: Text): Attempt
    requires id in s.archive && s.archive[id].payload.Obj?
  {
    Attempt(id, Some(key), correlationId, RequestOf(id, s.archive[id], Some(key)))
  }

  lemma BeginsCall(s: State, call: nat, id: Id, header: Option<Text>, key: Text, correlationId: Text)
    requires |s.lives| > 0 && call !in s.calls && id in s.experiments && id in s.archive
    requires Creatable(id, s.archive[id]) && ReadHeader(header, 80) == Some(key) && !Replays(s.receipts, id, key)
    ensures var a := Asking(s, id, key, correlationId);
            && Ok(BuildRequest(a.request, Str(correlationId)))
            && Next(s, Begin(call, id, header, correlationId))
               == s.(inFlight := s.inFlight + {call}, calls := s.calls[call := a],
                     wire := s.wire[call := Stringify(BuildRequest(a.request, Str(correlationId)))])
  {
    BuiltIsOk(RequestOf(id, s.archive[id], Some(key)), correlationId);
    hide Replays, PositiveInt, NumberOk, Ok, BuildRequest, Stringify, ReadHeader;
  }

  lemma DeliversCall(s: State, call: nat, body: Json, fields: Json)
    requires |s.lives| > 0 && call in s.wire && Ok(body) && s.wire[call] == Stringify(body)
    ensures Next(s, Deliver(call, fields))
        == InLife(s, D.Arrive(call, body, fields)).(wire := Without(s.wire, call))
  {
    ParseStringify(body);
    hide D.Next, Stringify, Parse, Ok;
  }

  /** A call that is on the wire reaches the present lifetime when it is delivered. */
  lemma DeliveredReaches(s: State, call: nat, fields: Json)
    requires Inv(s) && call in s.wire && s.calls[call].key.Some?
    ensures var t := Next(s, Deliver(call, fields));
            && Reaches(t, |s.lives| - 1, call, s.calls[call].experimentId, s.calls[call].key.value)
            && t == s.(wire := t.wire, lives := t.lives) && |t.lives| == |s.lives|
            && t.lives[..|s.lives| - 1] == s.lives[..|s.lives| - 1]
  {
    var a := s.calls[call];
    assert AttemptOk(s.archive, a) && LifeOk(s.archive, s.calls, Present(s));
    DeliversCall(s, call, BuildRequest(a.request, Str(a.correlationId)), fields);
    ArrivalReaches(Present(s), call, a, fields);
    hide Inv, LifeOk, AttemptOk, BuildRequest, D.Next, Next, Reached;
  }

  lemma ArrivalReaches(life: D.State, call: nat, a: Attempt, fields: Json)
    requires RequestOk(a.request) && life.refused == map[]
    ensures Reached(D.Next(life, D.Arrive(call, BuildRequest(a.request, Str(a.correlationId)), fields)), call)
  {
    ArrivalJoins(life, call, a, fields);
    hide D.Next, BuildRequest, CacheKey;
  }

  lemma RunThree(actions: seq<Action>, a: Action, b: Action, c: Action)
    ensures Run(actions + [a, b, c]) == Next(Next(Next(Run(actions), a), b), c)
  {
    hide Next;
    RunOne(actions + [a, b], c);
    RunOne(actions + [a], b);
    RunOne(actions, a);
    assert actions + [a, b, c] == (actions + [a, b]) + [c] && actions + [a, b] == (actions + [a]) + [b];
  }

  lemma RunOne(actions: seq<Action>, a: Action)
    ensures Run(actions + [a]) == Next(Run(actions), a)
  {
    hide Next;
    assert (actions + [a])[..|actions|] == actions;
  }

  /** What has reached a lifetime has reached it for ever. */
  lemma ReachesLater(s: State, t: State, k: nat, c: nat, id: Id, key: Text)
    requires Reaches(s, k, c, id, key) && k < |t.lives| && t.lives[k] == s.lives[k]
    requires c in t.calls && t.calls[c] == s.calls[c]
    ensures Reaches(t, k, c, id, key)
  {
    hide Reached;
  }

  lemma NonEmpty(s: State)
    requires Inv(s)
    ensures |s.lives| > 0
  {
  }

  /** The call could only have been made for an experiment that can be run. */
  lemma ReachedIsCreatable(s: State, k: nat, c: nat, id: Id, key: Text)
    requires Inv(s) && Reaches(s, k, c, id, key)
    ensures id in s.archive && Creatable(id, s.archive[id])
  {
    hide LivesOk, WireOk, ReceiptsOk, Reached, Creatable;
    assert AttemptOk(s.archive, s.calls[c]);
  }

  lemma BegunReaches(s: State, k: nat, c: nat, call: nat, id: Id, header: Option<Text>, key: Text, correlationId: Text)
    requires Inv(s) && Reaches(s, k, c, id, key) && call !in s.calls && id in s.experiments
    requires ReadHeader(header, 80) == Some(key) && !Replays(s.receipts, id, key)
    ensures var t := Next(s, Begin(call, id, header, correlationId));
            && Inv(t) && Reaches(t, k, c, id, key) && t.lives == s.lives
            && call in t.wire && call in t.calls && t.calls[call].experimentId == id && t.calls[call].key == Some(key)
  {
    hide Inv, Replays, ReadHeader, BuildRequest, Stringify, Ok, Next, Creatable, RequestOf, Reached;
    NonEmpty(s);
    ReachedIsCreatable(s, k, c, id, key);
    BeginsCall(s, call, id, header, key, correlationId);
    NextKeepsInv(s, Begin(call, id, header, correlationId));
  }

  lemma Restarts(s: State)
    requires |s.lives| > 0
    ensures Next(s, Restart) == s.(lives := s.lives + [D.INITIAL])
  {
  }

  lemma RestartedReaches(s: State, k: nat, c: nat, id: Id, key: Text)
    requires Inv(s) && Reaches(s, k, c, id, key)
    ensures var t := Next(s, Restart);
            && Inv(t) && Reaches(t, k, c, id, key) && k < |t.lives| - 1 && t == s.(lives := s.lives + [D.INITIAL])
  {
    NextKeepsInv(s, Restart);
    Restarts(s);
    hide Next, Inv, Reached;
  }

  lemma DeliveredTwice(s: State, k: nat, c: nat, call: nat, fields: Json)
    requires Inv(s) && call in s.wire && s.calls[call].key.Some? && k < |s.lives| - 1
    requires Reaches(s, k, c, s.calls[call].experimentId, s.calls[call].key.value)
    ensures !ExecutedOnce(Next(s, Deliver(call, fields)), s.calls[call].experimentId, s.calls[call].key.value)
  {
    var (t, id, key) := (Next(s, Deliver(call, fields)), s.calls[call].experimentId, s.calls[call].key.value);
    NextKeepsInv(s, Deliver(call, fields));
    DeliveredReaches(s, call, fields);
    hide Inv, Next, ExecutedOnce;
    assert t.lives[k] == t.lives[..|s.lives| - 1][k] == s.lives[k];
    ReachesLater(s, t, k, c, id, key);
    OnceIfOneLife(t, id, key);
  }

  /**
   After a restart the next request for a key that is not replayed runs the work again, whatever has been
   executed before: the exact point where the in-memory cache differs from the runner's ledger.
   */
  lemma RestartRunsAgain(actions: seq<Action>, k: nat, c: nat, call: nat, id: Id, header: Option<Text>, key: Text,
      correlationId: Text, fields: Json)
    requires var s := Run(actions);
        call !in s.calls && id in s.experiments && Reaches(s, k, c, id, key) && !Replays(s.receipts, id, key)
    requires ReadHeader(header, 80) == Some(key)
    ensures !ExecutedOnce(Run(actions + [Restart, Begin(call, id, header, correlationId), Deliver(call, fields)]), id,
        key)
  {
    RunKeepsInv(actions);
    hide Run, Inv, Next, Replays, ReadHeader, ExecutedOnce, Reaches;
    var t := Next(Run(actions), Restart);
    RestartedReaches(Run(actions), k, c, id, key);
    BegunReaches(t, k, c, call, id, header, key, correlationId);
    DeliveredTwice(Next(t, Begin(call, id, header, correlationId)), k, c, call, fields);
    RunThree(actions, Restart, Begin(call, id, header, correlationId), Deliver(call, fields));
  }

  lemma Creates(id: Id, e: C.Experiment)
    requires Creatable(id, e)
    ensures Next(START, Create(id, e)) == START.(experiments := {id}, archive := map[id := e])
  {
    hide Creatable;
  }

  /** The caller gives up: its receipt is not settled, so it is not replayed. */
  lemma TimesOut(s: State, call: nat, id: Id, key: Text)
    requires |s.lives| > 0 && s.receipts == [] && call in s.inFlight && call in s.calls
    ensures var t := Next(s, Intrude(call, TimeoutError));
            && !Replays(t.receipts, id, key)
            && t == s.(inFlight := s.inFlight - {call}, receipts := t.receipts)
  {
    hide D.Next;
  }

  /** The shortest such run: one caller gives up, the dependency is restarted, and the same request is sent again. */
  lemma SameRequestRunsTwice(id: Id, e: C.Experiment, header: Option<Text>, key: Text, first: Text, second: Text,
      fields: Json)
    requires Creatable(id, e) && ReadHeader(header, 80) == Some(key)
    ensures var sent := [Create(id, e), Begin(0, id, header, first), Deliver(0, fields), Intrude(0, TimeoutError)];
            !ExecutedOnce(Run(sent + [Restart, Begin(1, id, header, second), Deliver(1, fields)]), id, key)
  {
    hide Creatable, Replays, ReadHeader, Next, Inv, ExecutedOnce, Reached, BuildRequest, Stringify, Ok, RequestOf;
    var s0 := Next(START, Create(id, e));
    StartInv();
    Creates(id, e);
    NextKeepsInv(START, Create(id, e));
    NoReceipts(id, key);
    BeginsCall(s0, 0, id, header, key, first);
    NextKeepsInv(s0, Begin(0, id, header, first));
    var s1 := Next(s0, Begin(0, id, header, first));
    DeliveredReaches(s1, 0, fields);
    var s2 := Next(s1, Deliver(0, fields));
    TimesOut(s2, 0, id, key);
    var sent := [Create(id, e), Begin(0, id, header, first), Deliver(0, fields), Intrude(0, TimeoutError)];
    RunOne([], sent[0]);
    RunThree([sent[0]], sent[1], sent[2], sent[3]);
    assert [] + [sent[0]] == [sent[0]] && [sent[0]] + [sent[1], sent[2], sent[3]] == sent;
    assert Run(sent) == Next(s2, Intrude(0, TimeoutError));
    RestartRunsAgain(sent, 0, 0, 1, id, header, key, second, fields);
  }

  lemma NoReceipts(id: Id, key: Text)
    ensures !Replays([], id, key)
  {
  }
}

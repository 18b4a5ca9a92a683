/**
 The baseline dependency (downstream/src/app.ts:4-148): JSON-RPC 2.0 calls, a cache of promises that
 executes each experiment and key once, and the coordinator's side of the exchange
 (server/src/downstream-rpc.ts:36-86). Numbers are those of module JsonNumber.
 */
module Downstream {
  import opened Wrappers
  import opened JsonNumber
  import opened JsonString
  import opened Json
  import P = Protocol

  // ----- shapes of values

  const MAX_SAFE := 0x1F_FFFF_FFFF_FFFF

  predicate SafeInt(d: Decimal) {
    d.Nought? || (|d.digits| <= d.point <= 16 && NatValue(d.digits + Zeros(d.point - |d.digits|)) <= MAX_SAFE)
  }

  predicate PositiveInt(d: Decimal) {
    d.Dec? && !d.negative && SafeInt(d)
  }

  predicate IsId(v: Json) {
    v.Str? || v.Num?
  }

  predicate Is(v: Json, key: string, expected: Json) {
    P.Lookup(v, Ascii(key)) == Some(expected)
  }

  const VERSION := Str(Ascii("2.0"))

  const METHOD := Str(Ascii("relaylab.process.v1"))

  // ----- requests

  datatype Request = Request(experimentId: Decimal, behavior: P.Behavior, payload: seq<Member>, key: Option<Text>)

  predicate RequestOk(r: Request) {
    PositiveInt(r.experimentId) && NumberOk(r.experimentId) && Ok(Obj(r.payload))
        && (r.key.Some? ==> 1 <= |r.key.value| <= 80)
  }

  /** buildDownstreamRpcRequest, given the id it chose. */
  function BuildRequest(r: Request, id: Json): Json {
    Obj([Member(Ascii("jsonrpc"), VERSION), Member(Ascii("id"), id), Member(Ascii("method"), METHOD),
        Member(Ascii("params"), Params(r))])
  }

  function Params(r: Request): Json {
    Obj([Member(Ascii("experimentId"), Num(r.experimentId)), Member(Ascii("behavior"), Str(P.BehaviorText(r.behavior))),
        Member(Ascii("payload"), Obj(r.payload))]
        + if r.key.Some? then [Member(Ascii("idempotencyKey"), Str(r.key.value))] else [])
  }

  function ParseParams(v: Json): Option<Request> {
    match (P.Lookup(v, Ascii("experimentId")), P.Lookup(v, Ascii("behavior")), P.Lookup(v, Ascii("payload")),
        P.Lookup(v, Ascii("idempotencyKey")))
    case (Some(Num(id)), Some(Str(b)), Some(Obj(payload)), None) =>
      if PositiveInt(id) && P.ParseBehavior(b).Some? then Some(Request(id, P.ParseBehavior(b).value, payload, None))
          else None
    case (Some(Num(id)), Some(Str(b)), Some(Obj(payload)), Some(Str(key))) =>
      if PositiveInt(id) && P.ParseBehavior(b).Some? && 1 <= |key| <= 80
          then Some(Request(id, P.ParseBehavior(b).value, payload, Some(key))) else None
    case _ => None
  }

  // ----- replies

  datatype Reply = Result(value: Json) | Error(code: Decimal, message: Text, data: Option<Json>)

  const INVALID_REQUEST := Dec(true, [3, 2, 6], 5)
  const METHOD_NOT_FOUND := Dec(true, [3, 2, 6, 0, 1], 5)
  const INVALID_PARAMS := Dec(true, [3, 2, 6, 0, 2], 5)
  const DEPENDENCY_UNAVAILABLE := Dec(true, [3, 2, 0, 0, 1], 5)

  /** The envelope of a reply, under the caller's own id. */
  function Envelope(reply: Reply, id: Json): Json {
    Obj([Member(Ascii("jsonrpc"), VERSION), Member(Ascii("id"), id),
         if reply.Result? then Member(Ascii("result"), reply.value) else Member(Ascii("error"), ErrorObject(reply))])
  }

  function ErrorObject(reply: Reply): Json
    requires reply.Error?
  {
    Obj([Member(Ascii("code"), Num(reply.code)), Member(Ascii("message"), Str(reply.message))]
        + if reply.data.Some? then [Member(Ascii("data"), reply.data.value)] else [])
  }

  /** What is read from a body: the call it makes, or the reply that refuses it and the id to send it under. */
  datatype Call = Accepted(id: Json, request: Request) | Refused(id: Json, reply: Reply)

  function ReadCall(body: Json, fields: Json): Call {
    var id := P.Lookup(body, Ascii("id"));
    var name := P.Lookup(body, Ascii("method"));
    if !Is(body, "jsonrpc", VERSION) || id.None? || !IsId(id.value) || name.None? || !name.value.Str? then
      Refused(Null, Error(INVALID_REQUEST, Ascii("Invalid Request"), None))
    else if name.value != METHOD then
      Refused(id.value, Error(METHOD_NOT_FOUND, Ascii("Method not found"),
          Some(Obj([Member(Ascii("method"), name.value)]))))
    else
      var params := P.Lookup(body, Ascii("params"));
      var request := if params.Some? then ParseParams(params.value) else None;
      if request.None? then Refused(id.value, Error(INVALID_PARAMS, Ascii("Invalid params"),
          Some(Obj([Member(Ascii("fields"), fields)]))))
      else Accepted(id.value, request.value)
  }

  /** The work body. */
  function Execute(r: Request, processedAt: Text): Reply {
    match r.behavior
    case Unavailable => Error(DEPENDENCY_UNAVAILABLE, Ascii("Dependency unavailable"),
        Some(Obj([Member(Ascii("retryable"), Bool(true))])))
    case Malformed => Result(Str(Ascii("upstream said maybe")))
    case _ => Result(Obj([Member(Ascii("accepted"), Bool(true)), Member(Ascii("experimentId"), Num(r.experimentId)),
                          Member(Ascii("echo"), Obj(r.payload)), Member(Ascii("processedAt"), Str(processedAt))]))
  }

  // ----- the coordinator's classifier

  datatype Verdict = Verdict(outcome: P.Outcome, errorCode: Option<Decimal>)

  predicate ResultFits(v: Json, expected: Option<Decimal>) {
    Is(v, "accepted", Bool(true))
    && (match P.Lookup(v, Ascii("experimentId")) case Some(Num(d)) => PositiveInt(d)
        && (expected.Some? ==> d == expected.value) case _ => false)
    && (match P.Lookup(v, Ascii("echo")) case Some(Obj(_)) => true case _ => false)
    && (match P.Lookup(v, Ascii("processedAt")) case Some(Str(_)) => true case _ => false)
  }

  predicate ErrorFits(v: Json) {
    (match P.Lookup(v, Ascii("code")) case Some(Num(d)) => SafeInt(d) case _ => false)
    && (match P.Lookup(v, Ascii("message")) case Some(Str(_)) => true case _ => false)
    && (match P.Lookup(v, Ascii("data")) case Some(Obj(_)) => true case Some(_) => false case None => true)
  }

  function ClassifyRpc(body: Json, expectedId: Json, expected: Option<Decimal>): Verdict {
    var result, error := P.Lookup(body, Ascii("result")), P.Lookup(body, Ascii("error"));
    if result.Some? && error.Some? then Verdict(P.InvalidResponse, None)
    else if Is(body, "jsonrpc", VERSION) && Is(body, "id", expectedId) && IsId(expectedId) && result.Some?
        && ResultFits(result.value, expected) then
      Verdict(P.Success, None)
    else if Is(body, "jsonrpc", VERSION) && Is(body, "id", expectedId) && IsId(expectedId) && error.Some?
        && ErrorFits(error.value) then
      Verdict(P.DownstreamError, Some(P.Lookup(error.value, Ascii("code")).value.number))
    else Verdict(P.InvalidResponse, None)
  }

  /** A response of this version, for this exchange. */
  predicate ForExchange(body: Json, id: Json) {
    IsId(id) && Is(body, "jsonrpc", VERSION) && Is(body, "id", id)
  }

  /**
   What a verdict says about the body. Section 5 of the JSON-RPC 2.0 Specification: a response has a
   result or an error, not both; so each verdict other than invalid rests on exactly one of them.
   */
  lemma VerdictIsExact(body: Json, id: Json, expected: Option<Decimal>)
    ensures var (result, error) := (P.Lookup(body, Ascii("result")), P.Lookup(body, Ascii("error")));
            var verdict := ClassifyRpc(body, id, expected);
            && (verdict.outcome == P.Success <==>
                  ForExchange(body, id) && result.Some? && error.None? && IsAcceptance(result.value, expected))
            && (verdict.outcome == P.DownstreamError <==>
                  ForExchange(body, id) && error.Some? && result.None? && IsReport(error.value))
            && (verdict.errorCode.Some? <==> verdict.outcome == P.DownstreamError)
            && (verdict.errorCode.Some? ==> P.Lookup(error.value, Ascii("code")) == Some(Num(verdict.errorCode.value)))
            && (result.Some? && error.Some? ==> verdict == Verdict(P.InvalidResponse, None))
  {
    FittingIsAccepting(body, expected);
    hide ResultFits, IsAcceptance, IsReport;
  }

  /** The result accepts the work of this experiment, or of some experiment if none is expected. */
  predicate IsAcceptance(result: Json, expected: Option<Decimal>) {
    var (id, echo, processedAt) :=
      (P.Lookup(result, Ascii("experimentId")), P.Lookup(result, Ascii("echo")),
          P.Lookup(result, Ascii("processedAt")));
    && P.Lookup(result, Ascii("accepted")) == Some(Bool(true))
    && id.Some? && id.value.Num? && PositiveInt(id.value.number)
    && (expected.None? || id.value.number == expected.value)
    && echo.Some? && echo.value.Obj?
    && processedAt.Some? && processedAt.value.Str?
  }

  /** An error has an integer as its code, a text, and nothing or an object as its data. */
  predicate IsReport(error: Json) {
    var (code, message, data) :=
      (P.Lookup(error, Ascii("code")), P.Lookup(error, Ascii("message")), P.Lookup(error, Ascii("data")));
    && code.Some? && code.value.Num? && SafeInt(code.value.number)
    && message.Some? && message.value.Str?
    && (data.None? || data.value.Obj?)
  }

  lemma FittingIsAccepting(body: Json, expected: Option<Decimal>)
    ensures var result := P.Lookup(body, Ascii("result"));
            result.Some? ==> (ResultFits(result.value, expected) <==> IsAcceptance(result.value, expected))
    ensures var error := P.Lookup(body, Ascii("error"));
            error.Some? ==> (ErrorFits(error.value) <==> IsReport(error.value))
  {
    hide P.Lookup, PositiveInt, SafeInt, Ascii;
  }

  // ----- the exchange reads back

  lemma Reads(ms: seq<Member>, j: nat)
    requires j < |ms| && DistinctKeys(ms)
    ensures P.Lookup(Obj(ms), ms[j].key) == Some(ms[j].value)
  {
    P.FindAt(ms, j);
  }

  lemma ReadsNothing(ms: seq<Member>, key: Text)
    requires forall i :: 0 <= i < |ms| ==> ms[i].key != key
    ensures P.Lookup(Obj(ms), key) == None
  {
  }

  lemma KeysDiffer()
    ensures |Ascii("jsonrpc")| == 7 && |Ascii("id")| == 2 && |Ascii("method")| == 6 && |Ascii("params")| == 6
        && Ascii("method") != Ascii("params")
    ensures |Ascii("result")| == 6 && |Ascii("error")| == 5
    ensures |Ascii("code")| == 4 && |Ascii("message")| == 7 && |Ascii("data")| == 4 && Ascii("code") != Ascii("data")
  {
    assert Ascii("method")[0] == 0x6D && Ascii("params")[0] == 0x70 && Ascii("code")[0] == 0x63
        && Ascii("data")[0] == 0x64;
  }

  lemma ParamKeysDiffer()
    ensures |Ascii("experimentId")| == 12 && |Ascii("behavior")| == 8 && |Ascii("payload")| == 7
        && |Ascii("idempotencyKey")| == 14
    ensures |Ascii("accepted")| == 8 && |Ascii("echo")| == 4 && |Ascii("processedAt")| == 11
  {
  }

  lemma ParamsReadBack(r: Request)
    requires RequestOk(r)
    ensures ParseParams(Params(r)) == Some(r)
  {
    ParamKeysDiffer();
    P.BehaviorReadsBack(r.behavior);
    var ms := Params(r).members;
    assert DistinctKeys(ms);
    Reads(ms, 0);
    Reads(ms, 1);
    Reads(ms, 2);
    if r.key.Some? { Reads(ms, 3); } else { ReadsNothing(ms, Ascii("idempotencyKey")); }
  }

  /** Every request the coordinator builds is accepted and read as it was meant. */
  lemma RequestReadsBack(r: Request, id: Json, fields: Json)
    requires RequestOk(r) && IsId(id)
    ensures ReadCall(BuildRequest(r, id), fields) == Accepted(id, r)
  {
    KeysDiffer();
    var ms := BuildRequest(r, id).members;
    assert DistinctKeys(ms);
    Reads(ms, 0);
    Reads(ms, 1);
    Reads(ms, 2);
    Reads(ms, 3);
    ParamsReadBack(r);
  }

  lemma EnvelopeReads(reply: Reply, id: Json)
    ensures var body := Envelope(reply, id);
            Is(body, "jsonrpc", VERSION) && Is(body, "id", id)
            && P.Lookup(body, Ascii("result")) == (if reply.Result? then Some(reply.value) else None)
            && P.Lookup(body, Ascii("error")) == (if reply.Error? then Some(ErrorObject(reply)) else None)
  {
    KeysDiffer();
    var ms := Envelope(reply, id).members;
    assert DistinctKeys(ms);
    Reads(ms, 0);
    Reads(ms, 1);
    Reads(ms, 2);
    ReadsNothing(ms, if reply.Result? then Ascii("error") else Ascii("result"));
  }

  lemma ErrorReads(reply: Reply)
    requires reply.Error? && SafeInt(reply.code) && (reply.data.Some? ==> reply.data.value.Obj?)
    ensures ErrorFits(ErrorObject(reply)) && P.Lookup(ErrorObject(reply), Ascii("code")) == Some(Num(reply.code))
  {
    KeysDiffer();
    var ms := ErrorObject(reply).members;
    assert DistinctKeys(ms);
    Reads(ms, 0);
    Reads(ms, 1);
    if reply.data.Some? { Reads(ms, 2); } else { ReadsNothing(ms, Ascii("data")); }
  }

  lemma AcceptedReads(r: Request, processedAt: Text)
    requires RequestOk(r) && (r.behavior.Healthy? || r.behavior.Slow?)
    ensures ResultFits(Execute(r, processedAt).value, Some(r.experimentId))
  {
    ParamKeysDiffer();
    var ms := Execute(r, processedAt).value.members;
    assert DistinctKeys(ms);
    Reads(ms, 0);
    Reads(ms, 1);
    Reads(ms, 2);
    Reads(ms, 3);
  }

  lemma CodeIsSafe()
    ensures SafeInt(DEPENDENCY_UNAVAILABLE)
  {
    assert Zeros(0) == [];
    assert DEPENDENCY_UNAVAILABLE.digits + Zeros(0) == [3, 2, 0, 0, 1];
    assert NatValue([3, 2, 0, 0, 1]) == 10 * NatValue([3, 2, 0, 0])
      + 1 by { assert [3, 2, 0, 0, 1][..4] == [3, 2, 0, 0]; }
    assert NatValue([3, 2, 0, 0]) == 10 * NatValue([3, 2, 0]) by { assert [3, 2, 0, 0][..3] == [3, 2, 0]; }
    assert NatValue([3, 2, 0]) == 10 * NatValue([3, 2]) by { assert [3, 2, 0][..2] == [3, 2]; }
    assert NatValue([3, 2]) == 10 * NatValue([3]) + 2 by { assert [3, 2][..1] == [3]; }
    assert NatValue([3]) == 3;
  }

  /** What the work did is what the coordinator records, under whatever id the caller chose. */
  lemma ReplyClassified(r: Request, processedAt: Text, id: Json)
    requires RequestOk(r) && IsId(id)
    ensures ClassifyRpc(Envelope(Execute(r, processedAt), id), id, Some(r.experimentId))
            == Verdict(P.Expected(r.behavior), if r.behavior.Unavailable? then Some(DEPENDENCY_UNAVAILABLE) else None)
  {
    var reply := Execute(r, processedAt);
    EnvelopeReads(reply, id);
    match r.behavior
    case Unavailable =>
      CodeIsSafe();
      ErrorReads(reply);
    case Malformed =>
    case _ => AcceptedReads(r, processedAt);
  }

  /** One reply sent to two callers is classified identically for both. */
  lemma SameReplySameVerdict(reply: Reply, id1: Json, id2: Json, expected: Option<Decimal>)
    requires IsId(id1) && IsId(id2)
    ensures ClassifyRpc(Envelope(reply, id1), id1, expected) == ClassifyRpc(Envelope(reply, id2), id2, expected)
  {
    EnvelopeReads(reply, id1);
    EnvelopeReads(reply, id2);
  }

  // ----- what is refused

  /** The number is the negative integer `-n`. */
  predicate IsMinus(d: Decimal, n: nat) {
    d.Dec? && d.negative && |d.digits| <= d.point && NatValue(d.digits + Zeros(d.point - |d.digits|)) == n
  }

  lemma {:induction false} ValueGrows(ds: seq<Digit>, d: Digit)
    ensures NatValue(ds + [d]) == 10 * NatValue(ds) + d
  {
    assert (ds + [d])[..|ds|] == ds;
  }

  lemma ErrorCodes()
    ensures IsMinus(INVALID_REQUEST, 32600) && IsMinus(METHOD_NOT_FOUND, 32601) && IsMinus(INVALID_PARAMS, 32602)
    ensures IsMinus(DEPENDENCY_UNAVAILABLE, 32001)
  {
    assert NatValue([]) == 0;
    assert [] + [3] == [3] && [3] + [2] == [3, 2] && [3, 2] + [6] == [3, 2, 6] && [3, 2, 6] + [0] == [3, 2, 6, 0];
    assert [3, 2] + [0] == [3, 2, 0] && [3, 2, 0] + [0] == [3, 2, 0, 0] && [3, 2, 0, 0] + [1] == [3, 2, 0, 0, 1];
    ValueGrows([], 3);
    ValueGrows([3], 2);
    ValueGrows([3, 2], 6);
    ValueGrows([3, 2, 6], 0);
    ValueGrows([3, 2, 6, 0], 0);
    ValueGrows([3, 2, 6, 0], 1);
    ValueGrows([3, 2, 6, 0], 2);
    ValueGrows([3, 2], 0);
    ValueGrows([3, 2, 0], 0);
    ValueGrows([3, 2, 0, 0], 1);
    assert INVALID_REQUEST.digits + Zeros(2) == [3, 2, 6, 0] + [0];
    assert METHOD_NOT_FOUND.digits + Zeros(0) == [3, 2, 6, 0] + [1];
    assert INVALID_PARAMS.digits + Zeros(0) == [3, 2, 6, 0] + [2];
    assert DEPENDENCY_UNAVAILABLE.digits + Zeros(0) == [3, 2, 0, 0] + [1];
  }

  /** An envelope of version 2.0 with a text or number as its id and a text as its method. */
  predicate IsEnvelope(body: Json) {
    && P.Lookup(body, Ascii("jsonrpc")) == Some(Str(Ascii("2.0")))
    && (match P.Lookup(body, Ascii("id")) case Some(Str(_)) => true case Some(Num(_)) => true case _ => false)
    && (match P.Lookup(body, Ascii("method")) case Some(Str(_)) => true case _ => false)
  }

  /** The parameters describe `r`: every member has its type and its limits, and the key may be missing. */
  predicate Describes(params: Option<Json>, r: Request) {
    && params.Some? && PositiveInt(r.experimentId) && (r.key.Some? ==> 1 <= |r.key.value| <= 80)
    && P.Lookup(params.value, Ascii("experimentId")) == Some(Num(r.experimentId))
    && P.Lookup(params.value, Ascii("behavior")) == Some(Str(P.BehaviorText(r.behavior)))
    && P.Lookup(params.value, Ascii("payload")) == Some(Obj(r.payload))
    && P.Lookup(params.value, Ascii("idempotencyKey")) == if r.key.Some? then Some(Str(r.key.value)) else None
  }

  /**
   Section 5.1 of the JSON-RPC 2.0 Specification: a call is accepted if and only if it is an envelope for
   the one method with parameters that describe a request, and then it is that request. A body that is no
   envelope gets -32600 and the id null, another method -32601, and other parameters -32602, under its id.
   */
  lemma RefusalsAreExact(body: Json, fields: Json)
    ensures var (call, params) := (ReadCall(body, fields), P.Lookup(body, Ascii("params")));
            var named := P.Lookup(body, Ascii("method")) == Some(Str(Ascii("relaylab.process.v1")));
            var code := if call.Refused? && call.reply.Error? then Some(call.reply.code) else None;
            && (code == Some(INVALID_REQUEST) <==> !IsEnvelope(body))
            && (code == Some(METHOD_NOT_FOUND) <==> IsEnvelope(body) && !named)
            && (code == Some(INVALID_PARAMS) <==> IsEnvelope(body) && named && forall r :: !Describes(params, r))
            && (call.Accepted? <==> IsEnvelope(body) && named && exists r :: Describes(params, r))
            && (call.Accepted? ==> Describes(params, call.request))
            && (if IsEnvelope(body) then P.Lookup(body, Ascii("id")) == Some(call.id) else call.id == Null)
  {
    var params := P.Lookup(body, Ascii("params"));
    forall r | Describes(params, r) ensures ParseParams(params.value) == Some(r) {
      DescribedIsRead(params.value, r);
    }
    if params.Some? { ReadIsDescribed(params.value); }
    CodesDiffer();
    hide ParseParams, Describes, Ascii;
  }

  lemma CodesDiffer()
    ensures INVALID_REQUEST != METHOD_NOT_FOUND && INVALID_REQUEST != INVALID_PARAMS
        && METHOD_NOT_FOUND != INVALID_PARAMS
  {
    assert METHOD_NOT_FOUND.digits[4] == 1 && INVALID_PARAMS.digits[4] == 2;
  }

  lemma DescribedIsRead(v: Json, r: Request)
    requires Describes(Some(v), r)
    ensures ParseParams(v) == Some(r)
  {
    P.BehaviorReadsBack(r.behavior);
    hide P.Lookup, PositiveInt, Ascii, P.ParseBehavior, P.BehaviorText;
  }

  lemma ReadIsDescribed(v: Json)
    ensures ParseParams(v).Some? ==> Describes(Some(v), ParseParams(v).value)
  {
    hide P.Lookup, PositiveInt, Ascii, P.ParseBehavior, P.BehaviorText;
  }

  // ----- the cache key

  /** JSON.stringify([experimentId, key]) */
  function CacheKey(experimentId: Decimal, key: Text): Text
    requires NumberOk(experimentId)
  {
    assert Ok(Arr([Num(experimentId), Str(key)]));
    Stringify(Arr([Num(experimentId), Str(key)]))
  }

  /** Two experiments never share a cache entry, whatever characters their keys contain. */
  lemma CacheKeyInjective(id1: Decimal, key1: Text, id2: Decimal, key2: Text)
    requires NumberOk(id1) && NumberOk(id2) && CacheKey(id1, key1) == CacheKey(id2, key2)
    ensures id1 == id2 && key1 == key2
  {
    var a, b := Arr([Num(id1), Str(key1)]), Arr([Num(id2), Str(key2)]);
    assert Ok(a) && Ok(b);
    ParseStringify(a);
    ParseStringify(b);
    assert a.items[0] == b.items[0] && a.items[1] == b.items[1];
  }
}

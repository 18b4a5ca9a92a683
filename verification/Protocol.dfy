/**
 The contract between coordinator and runner (protocol/runner.proto): request validation and
 fingerprint, the result a finished job stores (runner/src/app.ts:7-58), and the classification
 of a reply (server/src/runner-client.ts:7-15, 69-84).
 */
module Protocol {
  import opened Wrappers
  import opened JsonNumber
  import opened JsonString
  import opened Json
  import opened CanonicalJson

  datatype Behavior = Healthy | Slow | Unavailable | Malformed

  datatype RunState = RUNNING | COMPLETED | INTERRUPTED

  datatype Request = Request(
    operationId: Text,
    correlationId: Text,
    experimentRef: Text,
    behavior: Text,
    payloadJson: Text)

  /** An execution as it crosses the wire. */
  datatype Execution = Execution(
    executionId: Text,
    operationId: Text,
    experimentRef: Text,
    state: Text,
    outcome: Text,
    resultJson: Text,
    startedAt: Text,
    completedAt: Text)

  datatype Code =
    | UNKNOWN
    | INVALID_ARGUMENT
    | DEADLINE_EXCEEDED
    | NOT_FOUND
    | ALREADY_EXISTS
    | RESOURCE_EXHAUSTED
    | ABORTED
    | INTERNAL
    | UNAVAILABLE
    | CANCELLED

  datatype Reply = Replied(execution: Execution) | Failed(code: Code)

  /** What a coordinator receipt records. */
  datatype Outcome = Success | DownstreamError | Timeout | Unreachable | InvalidResponse

  // ----- texts of the enumerations

  function BehaviorText(b: Behavior): Text {
    match b
    case Healthy => Ascii("healthy")
    case Slow => Ascii("slow")
    case Unavailable => Ascii("unavailable")
    case Malformed => Ascii("malformed")
  }

  function ParseBehavior(t: Text): (b: Option<Behavior>)
    ensures b.Some? ==> t == BehaviorText(b.value)
  {
    if t == Ascii("healthy") then Some(Healthy)
    else if t == Ascii("slow") then Some(Slow)
    else if t == Ascii("unavailable") then Some(Unavailable)
    else if t == Ascii("malformed") then Some(Malformed)
    else None
  }

  lemma BehaviorReadsBack(b: Behavior)
    ensures ParseBehavior(BehaviorText(b)) == Some(b)
  {
    assert |BehaviorText(Healthy)| == 7 && |BehaviorText(Slow)| == 4;
    assert |BehaviorText(Unavailable)| == 11 && |BehaviorText(Malformed)| == 9;
  }

  function StateText(s: RunState): (t: Text)
    ensures |t| == if s == RUNNING then 7 else if s == COMPLETED then 9 else 11
  {
    match s
    case RUNNING => Ascii("RUNNING")
    case COMPLETED => Ascii("COMPLETED")
    case INTERRUPTED => Ascii("INTERRUPTED")
  }

  predicate IsState(t: Text) {
    t == StateText(RUNNING) || t == StateText(COMPLETED) || t == StateText(INTERRUPTED)
  }

  // ----- field formats

  predicate IsHex(u: Unit) {
    HexValue(u).Some?
  }

  /** Thirty-two hexadecimal digits in groups of 8, 4, 4, 4 and 12. */
  predicate IsUuid(t: Text) {
    |t| == 36 && forall i :: 0 <= i < 36 ==>
        if i == 8 || i == 13 || i == 18 || i == 23 then t[i] == MINUS else IsHex(t[i])
  }

  predicate DigitsIn(t: Text, lo: nat, hi: nat)
    requires hi <= |t|
  {
    forall i :: lo <= i < hi ==> IsDigit(t[i])
  }

  /** An ISO 8601 instant in UTC: YYYY-MM-DDTHH:MM:SS, an optional fraction, Z. */
  predicate IsInstant(t: Text) {
    && 20 <= |t| && t[|t| - 1] == 0x5A
    && DigitsIn(t, 0, 4) && t[4] == MINUS && DigitsIn(t, 5, 7) && t[7] == MINUS && DigitsIn(t, 8, 10)
    && t[10] == 0x54
    && DigitsIn(t, 11, 13) && t[13] == COLON && DigitsIn(t, 14, 16) && t[16] == COLON && DigitsIn(t, 17, 19)
    && (|t| == 20 || (22 <= |t| && t[19] == DOT && DigitsIn(t, 20, |t| - 1)))
  }

  // ----- request validation

  /** The bytes of a UTF-16 text in UTF-8; a lone surrogate is replaced by a three-byte character. */
  function Utf8Length(t: Text): nat {
    if t == [] then 0
    else if PairAt(t) then 4 + Utf8Length(t[2..])
    else (if t[0] < 0x80 then 1 else if t[0] < 0x800 then 2 else 3) + Utf8Length(t[1..])
  }

  /** How many units of a text are at least `bound`. */
  function AtLeast(t: Text, bound: nat): nat {
    if t == [] then 0 else (if t[0] as nat >= bound then 1 else 0) + AtLeast(t[1..], bound)
  }

  /** How many units of a text are followed by the low half of their surrogate pair. */
  function Pairs(t: Text): nat {
    if t == [] then 0 else (if PairAt(t) then 1 else 0) + Pairs(t[1..])
  }

  /** Each unit counts for itself, once more from 0x80 and from 0x800; a pair is two bytes less than its halves. */
  lemma {:induction false} Utf8LengthCounts(t: Text)
    ensures Utf8Length(t) + 2 * Pairs(t) == |t| + AtLeast(t, 0x80) + AtLeast(t, 0x800)
    decreases |t|
  {
    if t != [] {
      if PairAt(t) {
        Utf8LengthCounts(t[2..]);
        assert t[1..][1..] == t[2..] && !PairAt(t[1..]);
        assert t[1..][0] == t[1];
      } else {
        Utf8LengthCounts(t[1..]);
      }
    }
  }

  const MAX_PAYLOAD := 64000

  function Validate(r: Request): (v: Option<(Behavior, Json)>)
    ensures v.Some? ==> v.value.1.Obj? && Ok(v.value.1) && r.behavior == BehaviorText(v.value.0)
    ensures v.Some? ==> Parse(r.payloadJson) == Some(v.value.1)
  {
    var behavior := ParseBehavior(r.behavior);
    if !(1 <= |r.operationId| <= 200) || !IsUuid(r.correlationId) || !(1 <= |r.experimentRef| <= 80) || behavior.None?
        then None
    else if MAX_PAYLOAD < |r.payloadJson| || MAX_PAYLOAD < Utf8Length(r.payloadJson) then None
    else match Parse(r.payloadJson)
      case None => None
      case Some(payload) => if payload.Obj? then Some((behavior.value, payload)) else None
  }

  // ----- the request fingerprint

  function Described(experimentRef: Text, behavior: Text, payload: Json): (v: Json)
    requires Ok(payload)
    ensures Ok(v)
  {
    var ms := [Member(Ascii("experimentRef"), Str(experimentRef)), Member(Ascii("behavior"), Str(behavior)),
      Member(Ascii("payload"), payload)];
    assert forall i :: 0 <= i < |ms| ==> Ok(ms[i].value);
    assert |ms[0].key| == 13 && |ms[1].key| == 8 && |ms[2].key| == 7;
    Obj(ms)
  }

  function Fingerprint(experimentRef: Text, behavior: Text, payload: Json): Text
    requires Ok(payload)
  {
    Canonical(Described(experimentRef, behavior, payload))
  }

  lemma MatchesOwnKey(m: Member, ns: seq<Member>, j: nat)
    requires j < |ns| && ns[j].key == m.key && DistinctKeys(ns)
    ensures HasMatch(m, ns) <==> Equivalent(m.value, ns[j].value)
  {
  }

  lemma DescribedEquivalent(ref1: Text, b1: Text, p1: Json, ref2: Text, b2: Text, p2: Json)
    requires Ok(p1) && Ok(p2)
    ensures Equivalent(Described(ref1, b1, p1), Described(ref2, b2, p2)) <==>
        ref1 == ref2 && b1 == b2 && Equivalent(p1, p2)
  {
    var (v, w) := (Described(ref1, b1, p1), Described(ref2, b2, p2));
    var (ms, ns) := (v.members, w.members);
    MatchesOwnKey(ms[0], ns, 0);
    MatchesOwnKey(ms[1], ns, 1);
    MatchesOwnKey(ms[2], ns, 2);
    assert Equivalent(v, w) <==> HasMatch(ms[0], ns) && HasMatch(ms[1], ns) && HasMatch(ms[2], ns);
  }

  /** The fingerprint accepts a retry exactly when nothing but the order of members changed. */
  lemma FingerprintExact(ref1: Text, b1: Text, p1: Json, ref2: Text, b2: Text, p2: Json)
    requires Ok(p1) && Ok(p2)
    ensures Fingerprint(ref1, b1, p1) == Fingerprint(ref2, b2, p2) <==> ref1 == ref2 && b1 == b2 && Equivalent(p1, p2)
  {
    CanonicalExact(Described(ref1, b1, p1), Described(ref2, b2, p2));
    DescribedEquivalent(ref1, b1, p1, ref2, b2, p2);
  }

  // ----- what a finished job stores

  function OutcomeText(b: Behavior): Text {
    match b
    case Unavailable => Ascii("downstream_error")
    case Malformed => Ascii("invalid_response")
    case _ => Ascii("success")
  }

  function AcceptedResult(experimentRef: Text, payload: Json, processedAt: Text): (v: Json)
    requires Ok(payload)
    ensures Ok(v)
  {
    var ms := [Member(Ascii("accepted"), Bool(true)), Member(Ascii("experimentRef"), Str(experimentRef)),
               Member(Ascii("echo"), payload), Member(Ascii("processedAt"), Str(processedAt))];
    assert forall i :: 0 <= i < |ms| ==> Ok(ms[i].value);
    assert |ms[0].key| == 8 && |ms[1].key| == 13 && |ms[2].key| == 4 && |ms[3].key| == 11;
    Obj(ms)
  }

  function UnavailableResult(): (v: Json)
    ensures Ok(v)
  {
    var ms := [Member(Ascii("error"), Str(Ascii("Simulated execution dependency unavailable"))),
      Member(Ascii("retryable"), Bool(true))];
    assert forall i :: 0 <= i < |ms| ==> Ok(ms[i].value);
    assert |ms[0].key| == 5 && |ms[1].key| == 9;
    Obj(ms)
  }

  function ResultOf(b: Behavior, experimentRef: Text, payload: Json, processedAt: Text): (v: Json)
    requires Ok(payload)
    ensures Ok(v)
  {
    match b
    case Unavailable => UnavailableResult()
    case Malformed => Str(Ascii("invalid experiment result"))
    case _ => AcceptedResult(experimentRef, payload, processedAt)
  }

  // ----- classification of a reply

  function Lookup(v: Json, key: Text): Option<Json> {
    if v.Obj? then Find(v.members, key) else None
  }

  function Find(ms: seq<Member>, key: Text): (r: Option<Json>)
    ensures r.Some? <==> exists i :: 0 <= i < |ms| && ms[i].key == key
  {
    if ms == [] then None else if ms[0].key == key then Some(ms[0].value) else Find(ms[1..], key)
  }

  predicate ValidExecution(e: Execution) {
    IsUuid(e.executionId) && IsState(e.state) && IsInstant(e.startedAt)
  }

  /** JSON.parse of the stored result; text that is not JSON is kept as a string. */
  function ResultValue(e: Execution): Json {
    match Parse(e.resultJson)
    case Some(v) => v
    case None => Str(e.resultJson)
  }

  predicate AcceptedFor(result: Json, experimentRef: Text, payload: Json) {
    && Lookup(result, Ascii("accepted")) == Some(Bool(true))
    && Lookup(result, Ascii("experimentRef")) == Some(Str(experimentRef))
    && (match Lookup(result, Ascii("processedAt")) case Some(Str(t)) => IsInstant(t) case _ => false)
    && (match Lookup(result, Ascii("echo")) case Some(Obj(ms)) => Equivalent(Obj(ms), payload) case _ => false)
  }

  predicate ReportsError(result: Json) {
    match Lookup(result, Ascii("error")) case Some(Str(_)) => true case _ => false
  }

  function Classify(e: Execution, operationId: Text, experimentRef: Text, payload: Json): Outcome {
    var result := ResultValue(e);
    if !ValidExecution(e) || e.operationId != operationId || e.experimentRef != experimentRef
        || e.state != StateText(COMPLETED)
    then InvalidResponse
    else if e.outcome == Ascii("success") && AcceptedFor(result, experimentRef, payload) then Success
    else if e.outcome == Ascii("downstream_error") && ReportsError(result) then DownstreamError
    else InvalidResponse
  }

  function ClassifyFailure(code: Code): Outcome {
    if code == DEADLINE_EXCEEDED then Timeout else if code == UNAVAILABLE then Unreachable else DownstreamError
  }

  // ----- the runner's own answers are classified as what they are

  lemma FindAt(ms: seq<Member>, j: nat)
    requires j < |ms| && DistinctKeys(ms)
    ensures Find(ms, ms[j].key) == Some(ms[j].value)
  {
    if j > 0 { FindAt(ms[1..], j - 1); }
  }

  /** The stored echo is accepted for every payload that differs from it in member order only. */
  lemma AcceptedResultIsAccepted(experimentRef: Text, echo: Json, payload: Json, processedAt: Text)
    requires Ok(echo) && echo.Obj? && Equivalent(echo, payload) && IsInstant(processedAt)
    ensures AcceptedFor(AcceptedResult(experimentRef, echo, processedAt), experimentRef, payload)
  {
    var ms := AcceptedResult(experimentRef, echo, processedAt).members;
    FindAt(ms, 0);
    FindAt(ms, 1);
    FindAt(ms, 2);
    FindAt(ms, 3);
  }

  lemma OutcomeTextsDiffer()
    ensures Ascii("success") != Ascii("downstream_error") && Ascii("success") != Ascii("invalid_response")
    ensures Ascii("downstream_error") != Ascii("invalid_response")
  {
    assert |Ascii("success")| == 7 && |Ascii("downstream_error")| == 16 && |Ascii("invalid_response")| == 16;
    assert Ascii("downstream_error")[0] == 0x64 && Ascii("invalid_response")[0] == 0x69;
  }

  function Expected(b: Behavior): Outcome {
    match b
    case Unavailable => DownstreamError
    case Malformed => InvalidResponse
    case _ => Success
  }

  /**
   An execution completed for one payload is classified by what its job did, for every payload that
   is the same up to member order, through the JSON round trip of its stored result.
   */
  lemma CompletedJobClassified(e: Execution, b: Behavior, echo: Json, payload: Json, processedAt: Text)
    requires Ok(echo) && echo.Obj? && Equivalent(echo, payload) && IsInstant(processedAt)
    requires ValidExecution(e) && e.state == StateText(COMPLETED)
    requires e.outcome == OutcomeText(b) && e.resultJson == Stringify(ResultOf(b, e.experimentRef, echo, processedAt))
    ensures Classify(e, e.operationId, e.experimentRef, payload) == Expected(b)
  {
    hide Ok, Equivalent, IsInstant, ValidExecution, ResultValue, Stringify, StateText, AcceptedFor, ReportsError,
      AcceptedResult, UnavailableResult, Ascii;
    ResultReadsBack(e, ResultOf(b, e.experimentRef, echo, processedAt));
    OutcomeTextsDiffer();
    match b
    case Unavailable => UnavailableIsReported();
    case Malformed =>
    case _ => AcceptedResultIsAccepted(e.experimentRef, echo, payload, processedAt);
  }

  lemma ResultReadsBack(e: Execution, v: Json)
    requires Ok(v) && e.resultJson == Stringify(v)
    ensures ResultValue(e) == v
  {
    ParseStringify(v);
  }

  lemma UnavailableIsReported()
    ensures ReportsError(UnavailableResult())
    ensures Lookup(UnavailableResult(), Ascii("retryable")) == Some(Bool(true))
  {
    FindAt(UnavailableResult().members, 0);
  }

  /** What the stored text of a result has under a key, if it is an object that has it. */
  function Stored(e: Execution, key: string): Option<Json> {
    match Parse(e.resultJson) case Some(v) => Lookup(v, Ascii(key)) case None => None
  }

  /** A well-formed reply for this operation and experiment whose work has ended with this outcome. */
  predicate Ended(e: Execution, operationId: Text, experimentRef: Text, outcome: string) {
    IsUuid(e.executionId) && IsInstant(e.startedAt) && e.state == Ascii("COMPLETED")
    && e.operationId == operationId && e.experimentRef == experimentRef && e.outcome == Ascii(outcome)
  }

  /**
   Whatever a reply says, it is recorded as a success if and only if it is a COMPLETED execution of this
   operation and experiment whose stored result was accepted, for this experiment, at some instant, with
   an echo that has the same canonical text as the saved payload.
   */
  lemma SuccessIsBacked(e: Execution, operationId: Text, experimentRef: Text, payload: Json)
    requires Ok(payload)
    ensures Classify(e, operationId, experimentRef, payload) == Success <==>
              && Ended(e, operationId, experimentRef, "success")
              && Stored(e, "accepted") == Some(Bool(true))
              && Stored(e, "experimentRef") == Some(Str(experimentRef))
              && Stored(e, "processedAt").Some? && Stored(e, "processedAt").value.Str?
              && IsInstant(Stored(e, "processedAt").value.text)
              && Stored(e, "echo").Some? && Stored(e, "echo").value.Obj?
              && Ok(Stored(e, "echo").value) && Canonical(Stored(e, "echo").value) == Canonical(payload)
  {
    hide IsUuid, IsInstant, Canonical, Equivalent, Ok, Lookup, Stored, Classify, Ended, AcceptedFor;
    SuccessIsAccepted(e, operationId, experimentRef, payload);
    LookupsRead(e);
    AcceptanceIs(e, experimentRef, payload);
    var echo := Stored(e, "echo");
    if echo.Some? { CanonicalExact(echo.value, payload); }
  }

  lemma SuccessIsAccepted(e: Execution, operationId: Text, experimentRef: Text, payload: Json)
    ensures Classify(e, operationId, experimentRef, payload) == Success <==>
              Ended(e, operationId, experimentRef, "success") && AcceptedFor(ResultValue(e), experimentRef, payload)
  {
    hide IsUuid, IsInstant, AcceptedFor, ReportsError, ResultValue;
    OutcomeTextsDiffer();
  }

  lemma AcceptanceIs(e: Execution, experimentRef: Text, payload: Json)
    ensures AcceptedFor(ResultValue(e), experimentRef, payload) <==>
              && Stored(e, "accepted") == Some(Bool(true))
              && Stored(e, "experimentRef") == Some(Str(experimentRef))
              && Stored(e, "processedAt").Some? && Stored(e, "processedAt").value.Str?
              && IsInstant(Stored(e, "processedAt").value.text)
              && Stored(e, "echo").Some? && Stored(e, "echo").value.Obj?
              && Equivalent(Stored(e, "echo").value, payload)
  {
    hide IsInstant, Equivalent, Lookup, Stored, ResultValue, Ascii, Ok;
    LookupsRead(e);
  }

  /** A failure is recorded if and only if such an execution says that it failed and stored a text for the error. */
  lemma FailureIsReported(e: Execution, operationId: Text, experimentRef: Text, payload: Json)
    ensures Classify(e, operationId, experimentRef, payload) == DownstreamError <==>
              && Ended(e, operationId, experimentRef, "downstream_error")
              && Stored(e, "error").Some? && Stored(e, "error").value.Str?
    ensures Classify(e, operationId, experimentRef, payload) in {Success, DownstreamError, InvalidResponse}
  {
    hide IsUuid, IsInstant, Equivalent, Ascii, Lookup, ResultValue, Stored;
    OutcomeTextsDiffer();
    LookupsRead(e);
  }

  lemma LookupsRead(e: Execution)
    ensures forall key :: Lookup(ResultValue(e), Ascii(key)) == Stored(e, key)
    ensures forall key :: Stored(e, key).Some? ==> Ok(Stored(e, key).value)
  {
    forall key | Stored(e, key).Some? ensures Ok(Stored(e, key).value) {
      LookedUpIsOk(Parse(e.resultJson).value, Ascii(key));
    }
  }

  lemma {:induction false} FoundIsOk(ms: seq<Member>, key: Text)
    requires (forall i :: 0 <= i < |ms| ==> Ok(ms[i].value)) && Find(ms, key).Some?
    ensures Ok(Find(ms, key).value)
  {
    if ms[0].key != key { FoundIsOk(ms[1..], key); }
  }

  lemma LookedUpIsOk(v: Json, key: Text)
    requires Ok(v) && Lookup(v, key).Some?
    ensures Ok(Lookup(v, key).value)
  {
    FoundIsOk(v.members, key);
  }
}

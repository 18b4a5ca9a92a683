/**
 The /rpc handler over a lifetime of the dependency (downstream/src/app.ts:79-145): calls arrive,
 work resolves and replies are sent in any order, and a key of an experiment is executed once.
 */
module DownstreamService {
  import opened Wrappers
  import opened JsonNumber
  import opened JsonString
  import opened Json
  import opened Downstream
  import P = Protocol

  /** A promise: the request whose behaviour it runs, and its reply once resolved. */
  datatype Work = Work(request: Request, reply: Option<Reply>)

  datatype Waiting = Waiting(id: Json, request: Request, work: nat)

  datatype Sent = Sent(id: Json, request: Request, work: nat, body: Json)

  /** `replies` is the cache; `refused` holds the bodies of calls that started no work. */
  datatype State = State(replies: map<Text, nat>, works: seq<Work>, waiting: map<nat, Waiting>, sent: map<nat, Sent>,
    refused: map<nat, Json>)

  const INITIAL := State(map[], [], map[], map[], map[])

  datatype Action =
    | Arrive(call: nat, body: Json, fields: Json)
    | Finish(work: nat, processedAt: Text)
    | Respond(call: nat)

  predicate Known(s: State, call: nat) {
    call in s.waiting || call in s.sent || call in s.refused
  }

  function Cached(s: State, r: Request): Option<nat>
    requires NumberOk(r.experimentId)
  {
    if r.key.Some? && CacheKey(r.experimentId, r.key.value) in s.replies
        then Some(s.replies[CacheKey(r.experimentId, r.key.value)]) else None
  }

  function Started(s: State, r: Request): State
    requires NumberOk(r.experimentId)
  {
    s.(works := s.works + [Work(r, None)],
       replies := if r.key.Some? then s.replies[CacheKey(r.experimentId, r.key.value) := |s.works|] else s.replies)
  }

  function Join(s: State, call: nat, id: Json, r: Request): State
    requires NumberOk(r.experimentId)
  {
    if Cached(s, r).Some? then s.(waiting := s.waiting[call := Waiting(id, r, Cached(s, r).value)])
    else Started(s, r).(waiting := s.waiting[call := Waiting(id, r, |s.works|)])
  }

  function Next(s: State, a: Action): State {
    match a
    case Arrive(call, body, fields) =>
      if Known(s, call) then s
      else (match ReadCall(body, fields)
        case Refused(id, reply) => s.(refused := s.refused[call := Envelope(reply, id)])
        case Accepted(id, r) => if NumberOk(r.experimentId) then Join(s, call, id, r) else s)
    case Finish(n, processedAt) =>
      if n < |s.works| && s.works[n].reply.None?
          then s.(works := s.works[n := s.works[n].(reply := Some(Execute(s.works[n].request, processedAt)))]) else s
    case Respond(call) =>
      if call in s.waiting && s.waiting[call].work < |s.works| && s.works[s.waiting[call].work].reply.Some? then
        var w := s.waiting[call];
        s.(waiting := Without(s.waiting, call), sent := s.sent[call := Sent(w.id, w.request, w.work,
            Envelope(s.works[w.work].reply.value, w.id))])
      else s
  }

  function Run(actions: seq<Action>): State
    decreases |actions|
  {
    if actions == [] then INITIAL else Next(Run(actions[..|actions| - 1]), actions[|actions| - 1])
  }

  // ----- the invariant

  predicate SameOperation(r: Request, q: Request) {
    r.experimentId == q.experimentId && r.key.Some? && r.key == q.key
  }

  /** A caller waits for its own work, or for the work of the same experiment and key. */
  ghost predicate Serves(works: seq<Work>, n: nat, r: Request, id: Json) {
    n < |works| && IsId(id) && NumberOk(r.experimentId) && (SameOperation(r, works[n].request)
        || (r.key.None? && works[n].request == r))
  }

  ghost predicate Resolved(works: seq<Work>, n: nat, body: Json, id: Json) {
    n < |works| && works[n].reply.Some? && body == Envelope(works[n].reply.value, id)
  }

  ghost predicate CacheOk(replies: map<Text, nat>, works: seq<Work>) {
    && (forall n :: 0 <= n < |works| ==> NumberOk(works[n].request.experimentId))
    && (forall k :: k in replies ==> replies[k] < |works| && works[replies[k]].request.key.Some?
                                     && k == CacheKey(works[replies[k]].request.experimentId,
                                         works[replies[k]].request.key.value))
    && (forall n :: 0 <= n < |works| && works[n].request.key.Some? ==>
          CacheKey(works[n].request.experimentId, works[n].request.key.value) in replies
          && replies[CacheKey(works[n].request.experimentId, works[n].request.key.value)] == n)
  }

  ghost predicate CallsOk(s: State) {
    && (forall c :: c in s.waiting ==> Serves(s.works, s.waiting[c].work, s.waiting[c].request, s.waiting[c].id))
    && (forall c :: c in s.sent ==> Serves(s.works, s.sent[c].work, s.sent[c].request, s.sent[c].id)
                                    && Resolved(s.works, s.sent[c].work, s.sent[c].body, s.sent[c].id))
  }

  ghost predicate Inv(s: State) {
    CacheOk(s.replies, s.works) && CallsOk(s)
  }

  lemma StartedKeepsCache(s: State, r: Request)
    requires CacheOk(s.replies, s.works) && NumberOk(r.experimentId) && Cached(s, r).None?
    ensures CacheOk(Started(s, r).replies, Started(s, r).works)
  {
    hide CacheKey;
  }

  lemma ReadIdIsId(body: Json, fields: Json)
    requires ReadCall(body, fields).Accepted?
    ensures IsId(ReadCall(body, fields).id)
  {
  }

  lemma WaitingKeepsCalls(s: State, t: State, call: nat, w: Waiting)
    requires CallsOk(s) && t.sent == s.sent && t.waiting == s.waiting[call := w] && s.works <= t.works
        && Serves(t.works, w.work, w.request, w.id)
    ensures CallsOk(t)
  {
  }

  lemma JoinKeepsInv(s: State, call: nat, id: Json, r: Request)
    requires Inv(s) && NumberOk(r.experimentId) && IsId(id)
    ensures Inv(Join(s, call, id, r))
  {
    hide CacheKey, CallsOk, CacheOk;
    if Cached(s, r).Some? {
      CachedServes(s, r, id);
      hide Serves;
      WaitingKeepsCalls(s, Join(s, call, id, r), call, Waiting(id, r, Cached(s, r).value));
    } else {
      StartedKeepsCache(s, r);
      WaitingKeepsCalls(s, Join(s, call, id, r), call, Waiting(id, r, |s.works|));
    }
  }

  lemma CachedServes(s: State, r: Request, id: Json)
    requires CacheOk(s.replies, s.works) && NumberOk(r.experimentId) && IsId(id) && Cached(s, r).Some?
    ensures Serves(s.works, Cached(s, r).value, r, id)
  {
    var q := s.works[Cached(s, r).value].request;
    CacheKeyInjective(r.experimentId, r.key.value, q.experimentId, q.key.value);
  }

  lemma ArriveKeepsInv(s: State, call: nat, body: Json, fields: Json)
    requires Inv(s)
    ensures Inv(Next(s, Arrive(call, body, fields)))
  {
    if !Known(s, call) && ReadCall(body, fields).Accepted? {
      ReadIdIsId(body, fields);
      hide ReadCall, Inv, Join, Known;
      var r := ReadCall(body, fields).request;
      if NumberOk(r.experimentId) { JoinKeepsInv(s, call, ReadCall(body, fields).id, r); }
    } else {
      hide ReadCall, CacheOk, CacheKey, Envelope, Serves, Resolved;
      assert CallsOk(Next(s, Arrive(call, body, fields)));
    }
  }

  /** The requests stay, and a work that has its reply keeps it. */
  ghost predicate Resolves(works: seq<Work>, later: seq<Work>) {
    |later| == |works| && forall n :: 0 <= n < |works| ==>
      later[n].request == works[n].request && (works[n].reply.Some? ==> later[n] == works[n])
  }

  lemma ResolvesKeepsCache(replies: map<Text, nat>, works: seq<Work>, later: seq<Work>)
    requires CacheOk(replies, works) && Resolves(works, later)
    ensures CacheOk(replies, later)
  {
    hide CacheKey;
  }

  lemma ResolvesKeepsCalls(s: State, later: seq<Work>)
    requires CallsOk(s) && Resolves(s.works, later)
    ensures CallsOk(s.(works := later))
  {
    hide Envelope;
  }

  lemma FinishKeepsInv(s: State, n: nat, processedAt: Text)
    requires Inv(s)
    ensures Inv(Next(s, Finish(n, processedAt)))
  {
    hide CacheOk, CallsOk, Execute;
    var later := Next(s, Finish(n, processedAt)).works;
    ResolvesKeepsCache(s.replies, s.works, later);
    ResolvesKeepsCalls(s, later);
  }

  lemma RespondKeepsInv(s: State, call: nat)
    requires Inv(s)
    ensures Inv(Next(s, Respond(call)))
  {
    hide CacheKey, CacheOk, Envelope, Serves;
  }

  lemma NextKeepsInv(s: State, a: Action)
    requires Inv(s)
    ensures Inv(Next(s, a))
  {
    match a
    case Arrive(call, body, fields) => ArriveKeepsInv(s, call, body, fields);
    case Finish(n, processedAt) => FinishKeepsInv(s, n, processedAt);
    case Respond(call) => RespondKeepsInv(s, call);
  }

  lemma {:induction false} RunKeepsInv(actions: seq<Action>)
    ensures Inv(Run(actions))
    decreases |actions|
  {
    hide Inv;
    if actions == [] {
      InitialInv();
    } else {
      RunKeepsInv(actions[..|actions| - 1]);
      NextKeepsInv(Run(actions[..|actions| - 1]), actions[|actions| - 1]);
    }
  }

  lemma InitialInv()
    ensures Inv(INITIAL)
  {
  }

  lemma WorkIsUnique(s: State, m: nat, n: nat)
    requires CacheOk(s.replies, s.works) && m < |s.works| && n < |s.works|
        && SameOperation(s.works[m].request, s.works[n].request)
    ensures m == n
  {
  }

  /** The numbers of a parsed body are numbers that can be printed again. */
  lemma ReadNumberIsOk(body: Json, fields: Json)
    requires Ok(body) && ReadCall(body, fields).Accepted?
    ensures NumberOk(ReadCall(body, fields).request.experimentId)
  {
    P.LookedUpIsOk(body, Ascii("params"));
    P.LookedUpIsOk(P.Lookup(body, Ascii("params")).value, Ascii("experimentId"));
  }

  /** However calls interleave, each experiment and key is executed once in a lifetime. */
  lemma ExecutedOnce(actions: seq<Action>, m: nat, n: nat)
    requires var s := Run(actions);
        m < |s.works| && n < |s.works| && SameOperation(s.works[m].request, s.works[n].request)
    ensures m == n
  {
    RunKeepsInv(actions);
    WorkIsUnique(Run(actions), m, n);
  }

  /**
   All callers of one experiment and key are sent the same reply, each under its own id, and whoever of
   them asks the classifier gets the same verdict.
   */
  lemma CallersAgree(actions: seq<Action>, c: nat, d: nat, expected: Option<Decimal>)
    requires var s := Run(actions); c in s.sent && d in s.sent && SameOperation(s.sent[c].request, s.sent[d].request)
    ensures var s := Run(actions);
            && s.sent[c].work == s.sent[d].work
            && (exists reply ::
                  s.sent[c].body == Envelope(reply, s.sent[c].id) && s.sent[d].body == Envelope(reply, s.sent[d].id))
            && ClassifyRpc(s.sent[c].body, s.sent[c].id, expected)
               == ClassifyRpc(s.sent[d].body, s.sent[d].id, expected)
  {
    RunKeepsInv(actions);
    SharedReply(Run(actions), c, d);
    var (x, y) := (Run(actions).sent[c], Run(actions).sent[d]);
    var reply :| x.body == Envelope(reply, x.id) && y.body == Envelope(reply, y.id);
    SameReplySameVerdict(reply, x.id, y.id, expected);
  }

  lemma SharedReply(s: State, c: nat, d: nat)
    requires Inv(s) && c in s.sent && d in s.sent && SameOperation(s.sent[c].request, s.sent[d].request)
    ensures s.sent[c].work == s.sent[d].work && IsId(s.sent[c].id) && IsId(s.sent[d].id)
    ensures exists reply ::
        s.sent[c].body == Envelope(reply, s.sent[c].id) && s.sent[d].body == Envelope(reply, s.sent[d].id)
  {
    hide Envelope, CacheKey, CacheOk;
    var m, n := s.sent[c].work, s.sent[d].work;
    assert Serves(s.works, m, s.sent[c].request, s.sent[c].id) && Serves(s.works, n, s.sent[d].request, s.sent[d].id);
    WorkIsUnique(s, m, n);
    assert Resolved(s.works, m, s.sent[c].body, s.sent[c].id) && Resolved(s.works, n, s.sent[d].body, s.sent[d].id);
  }

  /** A body that is not accepted starts no work and is answered at once with an error under the caller's id. */
  lemma RefusedStartsNothing(s: State, call: nat, body: Json, fields: Json)
    requires !Known(s, call) && ReadCall(body, fields).Refused?
    ensures var t := Next(s, Arrive(call, body, fields));
            && t == s.(refused := t.refused) && call in t.refused
            && t.refused[call] == Envelope(ReadCall(body, fields).reply, ReadCall(body, fields).id)
            && P.Lookup(t.refused[call], Ascii("id"))
               == (if IsEnvelope(body) then P.Lookup(body, Ascii("id")) else Some(Null))
            && P.Lookup(t.refused[call], Ascii("error")).Some? && P.Lookup(t.refused[call], Ascii("result")).None?
  {
    RefusalsAreExact(body, fields);
    var c := ReadCall(body, fields);
    RefusalIsError(body, fields);
    EnvelopeReads(c.reply, c.id);
    hide ReadCall, Envelope, IsEnvelope, Describes, P.Lookup, Ascii;
  }

  lemma RefusalIsError(body: Json, fields: Json)
    ensures ReadCall(body, fields).Refused? ==> ReadCall(body, fields).reply.Error?
  {
  }

  // ----- the handler

  class Service {
    var replies: map<Text, nat>
    var works: seq<Work>
    var waiting: map<nat, Waiting>
    var sent: map<nat, Sent>
    var refused: map<nat, Json>

    ghost function View(): State
      reads this
    {
      State(replies, works, waiting, sent, refused)
    }

    ghost predicate Valid()
      reads this
    {
      Inv(View())
    }

    constructor ()
      ensures View() == INITIAL && Valid()
    {
      replies, works, waiting, sent, refused := map[], [], map[], map[], map[];
      new;
      InitialInv();
    }

    /** The handler up to its await: a known promise is joined, any other call executes. */
    method Handle(call: nat, body: Json, fields: Json) returns (started: bool)
      requires Valid() && !Known(View(), call) && Ok(body)
      modifies this
      ensures Valid() && View() == Next(old(View()), Arrive(call, body, fields))
    {
      hide Inv, CacheKey, ReadCall, Execute, Envelope;
      NextKeepsInv(View(), Arrive(call, body, fields));
      started := false;
      var envelope := ReadCall(body, fields);
      match envelope {
        case Refused(id, reply) =>
          refused := refused[call := Envelope(reply, id)];
        case Accepted(id, request) =>
          ReadNumberIsOk(body, fields);
          started := Begin(call, id, request);
      }
    }

    method Begin(call: nat, id: Json, request: Request) returns (started: bool)
      requires Valid() && NumberOk(request.experimentId)
      modifies this
      ensures View() == Join(old(View()), call, id, request)
      ensures started <==> Cached(old(View()), request).None?
    {
      hide Inv, CacheKey;
      var known: Option<nat> := None;
      if request.key.Some? {
        var key := CacheKey(request.experimentId, request.key.value);
        if key in replies { known := Some(replies[key]); }
      }
      started := known.None?;
      if known.Some? {
        waiting := waiting[call := Waiting(id, request, known.value)];
      } else {
        var pending := |works|;
        works := works + [Work(request, None)];
        if request.key.Some? { replies := replies[CacheKey(request.experimentId, request.key.value) := pending]; }
        waiting := waiting[call := Waiting(id, request, pending)];
      }
    }

    method Resolve(work: nat, processedAt: Text)
      requires Valid() && work < |works| && works[work].reply.None?
      modifies this
      ensures Valid() && View() == Next(old(View()), Finish(work, processedAt))
    {
      NextKeepsInv(View(), Finish(work, processedAt));
      works := works[work := works[work].(reply := Some(Execute(works[work].request, processedAt)))];
    }

    /** The handler after its await. */
    method Reply(call: nat) returns (body: Json)
      requires Valid() && call in waiting && waiting[call].work < |works| && works[waiting[call].work].reply.Some?
      modifies this
      ensures Valid() && View() == Next(old(View()), Respond(call))
      ensures call in sent && sent[call].body == body
    {
      NextKeepsInv(View(), Respond(call));
      var w := waiting[call];
      body := Envelope(works[w.work].reply.value, w.id);
      waiting := Without(waiting, call);
      sent := sent[call := Sent(w.id, w.request, w.work, body)];
    }
  }
}

/**
 The review service (coordinator-dotnet/Services/ReviewService.cs:9-71): sessions, and writes that are
 persisted first and announced afterwards. A database constraint error becomes status 409
 (coordinator-dotnet/Program.cs:43-44).
 */
module ReviewService {
  import opened Wrappers
  import opened ReviewTable
  import opened ReviewHub
  import S = ReviewStore
  import Q = ReviewQuery
  import opened ReviewRepository

  datatype Reply<+T> = Done(value: T) | Failed(status: int)

  datatype Session = Session(actor: Actor, expiresAt: int)

  const SESSION_LIMIT := 256

  const HOUR := 3600

  // ----- request checks

  /** Char.IsWhiteSpace. */
  predicate IsSpace(c: char) {
    var u := c as int;
    0x9 <= u <= 0xD || u == 0x20 || u == 0x85 || u == 0xA0 || u == 0x1680 || 0x2000 <= u <= 0x200A
    || u == 0x2028 || u == 0x2029 || u == 0x202F || u == 0x205F || u == 0x3000
  }

  function TrimStart(s: string): string {
    if s != "" && IsSpace(s[0]) then TrimStart(s[1..]) else s
  }

  function TrimEnd(s: string): string {
    if s != "" && IsSpace(s[|s| - 1]) then TrimEnd(s[..|s| - 1]) else s
  }

  function Trim(s: string): string {
    TrimEnd(TrimStart(s))
  }

  /** What is left of an accepted feedback ends with a character that SQLite's trim keeps. */
  lemma {:induction false} TrimEndNonBlank(s: string)
    ensures TrimEnd(s) != "" ==> S.NonBlank(TrimEnd(s))
    decreases |s|
  {
    if s != "" && IsSpace(s[|s| - 1]) {
      TrimEndNonBlank(s[..|s| - 1]);
    } else if s != "" {
      assert s[|s| - 1] != ' ';
    }
  }

  ghost predicate AllSpace(s: string) {
    forall i :: 0 <= i < |s| ==> IsSpace(s[i])
  }

  /** `t` is `s` without the white space around it. */
  ghost predicate IsTrimmed(s: string, t: string) {
    (exists left, right :: AllSpace(left) && AllSpace(right) && s == left + t + right)
    && (t != "" ==> !IsSpace(t[0]) && !IsSpace(t[|t| - 1]))
  }

  lemma {:induction false} TrimStartCuts(s: string)
    ensures |TrimStart(s)| <= |s| && TrimStart(s) == s[|s| - |TrimStart(s)|..]
    ensures AllSpace(s[..|s| - |TrimStart(s)|])
    ensures TrimStart(s) != "" ==> !IsSpace(TrimStart(s)[0])
  {
    if s != "" && IsSpace(s[0]) {
      TrimStartCuts(s[1..]);
      var n := |s| - |TrimStart(s)|;
      assert s[..n] == [s[0]] + s[1..][..n - 1];
    }
  }

  lemma {:induction false} TrimEndCuts(s: string)
    ensures TrimEnd(s) <= s && AllSpace(s[|TrimEnd(s)|..])
    ensures TrimEnd(s) != "" ==> !IsSpace(TrimEnd(s)[|TrimEnd(s)| - 1])
    decreases |s|
  {
    if s != "" && IsSpace(s[|s| - 1]) {
      var init, n := s[..|s| - 1], |TrimEnd(s)|;
      TrimEndCuts(init);
      assert s[n..] == init[n..] + [s[|s| - 1]];
    }
  }

  lemma TrimmedBy(s: string, rest: string, t: string)
    requires |rest| <= |s| && rest == s[|s| - |rest|..] && AllSpace(s[..|s| - |rest|])
    requires t <= rest && AllSpace(rest[|t|..])
    requires (rest != "" ==> !IsSpace(rest[0])) && (t != "" ==> !IsSpace(t[|t| - 1]))
    ensures IsTrimmed(s, t)
  {
    hide IsSpace, AllSpace;
    var left, right := s[..|s| - |rest|], rest[|t|..];
    assert s == left + rest == left + (t + right);
    assert s == left + t + right;
    if t != "" { assert t[0] == rest[0]; }
  }

  /** String.Trim. */
  lemma TrimIsTrimmed(s: string)
    ensures IsTrimmed(s, Trim(s))
  {
    hide TrimStart, TrimEnd, IsSpace, AllSpace, IsTrimmed;
    TrimStartCuts(s);
    TrimEndCuts(TrimStart(s));
    TrimmedBy(s, TrimStart(s), Trim(s));
  }

  function ParseDecision(status: string): (r: Option<S.Status>)
    ensures r.Some? <==> status == "approved" || status == "rejected"
    ensures r.Some? ==> r.value != S.PENDING
  {
    if status == "approved" then Some(S.APPROVED) else if status == "rejected" then Some(S.REJECTED) else None
  }

  function ActorOf(id: string): Option<Actor> {
    if id == "researcher-a" || id == "researcher-b" then Some(Q.Researcher(id)) else if id == "reviewer"
        then Some(Q.Reviewer(id)) else None
  }

  predicate IsToken(t: string) {
    |t| == 36 && forall i :: 0 <= i < |t| ==> '0' <= t[i] <= '9' || 'a' <= t[i] <= 'f' || t[i] == '-'
  }

  /** The token of a header or first frame. In .NET the pattern's dollar also matches before a final newline. */
  function TokenOf(authorization: string): (t: Option<string>)
    ensures t.Some? ==> IsToken(t.value) && "Bearer " + t.value <= authorization
  {
    if |authorization| >= 43 && authorization[..7] == "Bearer " && IsToken(authorization[7..43])
       && (authorization[43..] == "" || authorization[43..] == "\n")
    then
      assert authorization[..43] == "Bearer " + authorization[7..43];
      Some(authorization[7..43])
    else None
  }

  /** The scheme, the token and nothing else, or a final newline after them. */
  lemma TokenOfIsExact(authorization: string, token: string)
    ensures TokenOf(authorization) == Some(token) <==>
              IsToken(token) && (authorization == "Bearer " + token || authorization == "Bearer " + token + "\n")
  {
    if |authorization| >= 43 {
      assert authorization == authorization[..7] + authorization[7..43] + authorization[43..];
    }
    if |token| == 36 {
      assert ("Bearer " + token)[..7] == "Bearer " && ("Bearer " + token)[7..43] == token;
      assert ("Bearer " + token + "\n")[..7] == "Bearer " && ("Bearer " + token + "\n")[7..43] == token;
      assert ("Bearer " + token)[43..] == "" && ("Bearer " + token + "\n")[43..] == "\n";
    }
  }

  predicate HasSession(sessions: map<string, Session>, authorization: string, now: int) {
    var t := TokenOf(authorization);
    t.Some? && t.value in sessions && sessions[t.value].expiresAt > now
  }

  function Unexpired(sessions: map<string, Session>, now: int): map<string, Session> {
    map t | t in sessions && sessions[t].expiresAt > now :: sessions[t]
  }

  lemma RemovesToken(sessions: map<string, Session>, authorization: string, now: int)
    requires HasSession(sessions, authorization, now)
    ensures |authorization| >= 43
    ensures HasSession(sessions - {authorization[7..]}, authorization, now) <==>
        authorization == "Bearer " + TokenOf(authorization).value + "\n"
  {
    var t := authorization[7..43];
    assert authorization == "Bearer " + t + authorization[43..];
    assert authorization[7..] == t + authorization[43..];
    if authorization[43..] == "" { assert authorization[7..] == t; }
  }

  /** String.Length: UTF-16 units. */
  function Length(s: string): nat {
    if s == "" then 0 else Length(s[..|s| - 1]) + if s[|s| - 1] as int < 0x10000 then 1 else 2
  }

  /** The review with its decision; run, researcher and id stay. */
  function Decided(v: Row, status: S.Status, feedback: string, reviewerId: string, now: string): Row {
    v.(status := status, feedback := Some(feedback), reviewerId := Some(reviewerId), decidedAt := Some(now))
  }

  /** With feedback that is not blank the update fails only for a review that is already decided. */
  lemma DecidesIfPending(s: S.Store, id: nat, status: S.Status, feedback: string, reviewerId: string, now: string)
    requires status != S.PENDING && S.NonBlank(feedback) && id in s.reviews
    ensures var (t, r) := S.DecideReview(s, id, status, feedback, reviewerId, now);
            && r.Ok? && (r.value.Some? <==> s.reviews[id].status == S.PENDING)
            && (r.value.None? ==> t == s)
            && (r.value.Some? ==> t.reviews == s.reviews[id := r.value.value] && r.value.value == Decided(s.reviews[id],
                status, feedback, reviewerId, now))
  {
  }

  /** What a decision is made of, once its body is accepted. */
  function Accepted(body: Option<(string, string)>): (r: Option<(S.Status, string)>)
    ensures r.Some? <==>
        body.Some? && ParseDecision(body.value.0).Some? && 1 <= Length(Trim(body.value.1)) <= 2000
    ensures r.Some? ==>
        r.value == (ParseDecision(body.value.0).value, Trim(body.value.1))
        && r.value.0 != S.PENDING && S.NonBlank(r.value.1)
    ensures r.Some? ==>
        && (r.value.0 == S.APPROVED <==> body.value.0 == "approved")
        && (r.value.0 == S.REJECTED <==> body.value.0 == "rejected")
        && IsTrimmed(body.value.1, r.value.1)
  {
    if body.None? || ParseDecision(body.value.0).None? || !(1 <= Length(Trim(body.value.1)) <= 2000) then None
    else
      TrimEndNonBlank(TrimStart(body.value.1));
      TrimIsTrimmed(body.value.1);
      Some((ParseDecision(body.value.0).value, Trim(body.value.1)))
  }

  lemma PreservesItself(s: S.Store)
    requires S.StoreOk(s)
    ensures S.Preserves(s, s)
  {
  }

  class Service {
    const repository: Repository
    const updates: ReviewUpdates
    var sessions: map<string, Session>

    ghost predicate Valid()
      reads this, repository, updates
    {
      repository.Valid() && updates.Valid() && |sessions| <= SESSION_LIMIT && forall t :: t in sessions ==> IsToken(t)
    }

    constructor (repository: Repository, updates: ReviewUpdates)
      requires repository.Valid() && updates.Valid()
      ensures Valid() && this.repository == repository && this.updates == updates && sessions == map[]
    {
      this.repository, this.updates, sessions := repository, updates, map[];
    }

    /** `token` is a new one; `actorId` is None for a malformed body. */
    method CreateSession(demo: bool, actorId: Option<string>, token: string, now: int) returns (r: Reply<Actor>)
      requires Valid() && token !in sessions && IsToken(token)
      modifies this
      ensures Valid()
      ensures r.Done? <==>
          demo && actorId.Some? && actorId.value in ["researcher-a", "researcher-b", "reviewer"]
              && |Unexpired(old(sessions), now)| < 256
      ensures r.Done? ==>
          sessions == Unexpired(old(sessions), now)[token := Session(r.value, now + 3600)]
          && HasSession(sessions, "Bearer " + token, now)
          && r.value.id == actorId.value && (r.value.Reviewer? <==> actorId.value == "reviewer")
      ensures r.Failed? ==>
          r.status == if !demo then 403
                      else if actorId.None? || actorId.value !in ["researcher-a", "researcher-b", "reviewer"] then 400
                      else 429
      ensures r.Done? || r.status == 429 ==>
          forall t :: t in sessions && (r.Failed? || t != token) <==>
              t in old(sessions) && old(sessions)[t].expiresAt > now
      ensures r.Failed? && r.status != 429 ==> sessions == old(sessions)
      ensures r.Failed? && r.status == 429 ==> sessions == Unexpired(old(sessions), now)
    {
      if !demo { return Failed(403); }
      if actorId.None? || ActorOf(actorId.value).None? { return Failed(400); }
      var kept := Unexpired(sessions, now);
      Fewer(kept.Keys, sessions.Keys);
      sessions := kept;
      if |sessions| >= SESSION_LIMIT { return Failed(429); }
      var actor := ActorOf(actorId.value).value;
      sessions := sessions[token := Session(actor, now + HOUR)];
      assert ("Bearer " + token)[7..43] == token && ("Bearer " + token)[..7] == "Bearer ";
      r := Done(actor);
    }

    /** An expired session is forgotten when it is used. */
    method ActorFor(authorization: string, now: int) returns (r: Reply<Actor>)
      requires Valid()
      modifies this
      ensures Valid()
      ensures HasSession(old(sessions), authorization, now) ==>
          sessions == old(sessions) && r == Done(sessions[TokenOf(authorization).value].actor)
      ensures !HasSession(old(sessions), authorization, now) ==>
                r == Failed(401) && sessions == (if TokenOf(authorization).Some?
                    then old(sessions) - {TokenOf(authorization).value} else old(sessions))
    {
      hide TokenOf;
      var t := TokenOf(authorization);
      if t.Some? && t.value in sessions && sessions[t.value].expiresAt > now {
        return Done(sessions[t.value].actor);
      }
      if t.Some? {
        Fewer((sessions - {t.value}).Keys, sessions.Keys);
        sessions := sessions - {t.value};
      }
      r := Failed(401);
    }

    /**
     The session is gone before its subscribers are woken, so the check before the next frame fails. What
     is removed is the text after the scheme, so with a final newline the session stays.
     */
    method Revoke(authorization: string, now: int) returns (r: Reply<()>)
      requires Valid()
      modifies this, updates
      ensures Valid()
      ensures r.Done? <==> HasSession(old(sessions), authorization, now)
      ensures HasSession(sessions, authorization, now) <==>
          r.Done? && authorization == "Bearer " + TokenOf(authorization).value + "\n"
      ensures forall t :: t in sessions ==> t in old(sessions) && sessions[t] == old(sessions)[t]
      ensures forall t :: t in old(sessions) && t !in sessions ==> TokenOf(authorization) == Some(t)
      ensures updates.subscribers == if r.Done? then Woken(old(updates.subscribers), authorization)
          else old(updates.subscribers)
    {
      var actor := ActorFor(authorization, now);
      if actor.Failed? { return Failed(actor.status); }
      RemovesToken(sessions, authorization, now);
      Fewer((sessions - {authorization[7..]}).Keys, sessions.Keys);
      sessions := sessions - {authorization[7..]};
      updates.SessionRevoked(authorization);
      r := Done(());
    }

    ghost function Store(): S.Store
      reads repository
    {
      repository.View()
    }

    method Get(actor: Actor, id: nat) returns (r: Reply<Row>)
      requires Valid()
      ensures r.Done? <==> id in repository.reviews && InScope(actor, repository.reviews[id])
      ensures r == if r.Done? then Done(repository.reviews[id]) else Failed(404)
    {
      if id !in repository.reviews { return Failed(404); }
      var v := repository.reviews[id];
      if actor.Researcher? && v.researcherId != actor.id { return Failed(404); }
      r := Done(v);
    }

    /** Persisted, then announced; when nothing was written nothing is announced. */
    method Submit(actor: Actor, runId: nat) returns (r: Reply<Row>)
      requires Valid()
      modifies repository, updates
      ensures Valid() && S.Preserves(old(Store()), Store())
      ensures r.Done? <==> actor.Researcher? && runId in old(repository.runs) && !S.Reviewed(old(Store()), runId)
      ensures r.Done? ==> (Store(), S.Ok(r.value)) == S.CreateReview(old(Store()), runId, actor.id)
      ensures r.Done? ==>
          r.value == S.Review(old(repository.nextReview), runId, actor.id, S.PENDING, None, None, None)
          && r.value.id !in old(repository.reviews)
          && repository.reviews == old(repository.reviews)[r.value.id := r.value]
      ensures r.Done? ==> updates.subscribers == Announced(old(updates.subscribers), actor.id)
      ensures r.Failed? ==> Store() == old(Store()) && updates.subscribers == old(updates.subscribers)
      ensures r.Failed? ==>
          r.status == if actor.Reviewer? then 403 else if runId !in old(repository.runs) then 404 else 409
    {
      if !actor.Researcher? { return Failed(403); }
      if runId !in repository.runs { return Failed(404); }
      var created := repository.CreateReview(runId, actor.id);
      if created.Err? { return Failed(409); }
      updates.Publish(created.value.researcherId);
      r := Done(created.value);
    }

    /** An accepted decision: looked up, persisted, then announced. */
    method Settle(actor: Actor, id: nat, status: S.Status, feedback: string, now: string) returns (r: Reply<Row>)
      requires Valid() && actor.Reviewer? && status != S.PENDING && S.NonBlank(feedback)
      modifies repository, updates
      ensures Valid() && S.Preserves(old(Store()), Store())
      ensures r.Done? <==> id in old(repository.reviews) && old(repository.reviews)[id].status.PENDING?
      ensures r.Done? ==>
          (Store(), S.Ok(Some(r.value))) == S.DecideReview(old(Store()), id, status, feedback, actor.id, now)
      ensures r.Done? ==>
          r.value == Decided(old(repository.reviews)[id], status, feedback, actor.id, now)
          && repository.reviews == old(repository.reviews)[id := r.value]
      ensures r.Done? ==> updates.subscribers == Announced(old(updates.subscribers), r.value.researcherId)
      ensures r.Failed? ==> Store() == old(Store()) && updates.subscribers == old(updates.subscribers)
      ensures r.Failed? ==> r.status == if id in old(repository.reviews) then 409 else 404
    {
      hide S.NonBlank, S.DecideReview, S.StoreOk, S.Preserves, Announced, Decided;
      PreservesItself(Store());
      var seen := Get(actor, id);
      if seen.Failed? { return Failed(seen.status); }
      DecidesIfPending(Store(), id, status, feedback, actor.id, now);
      var decided := repository.DecideReview(id, status, feedback, actor.id, now);
      if decided.Err? || decided.value.None? { return Failed(409); }
      updates.Publish(decided.value.value.researcherId);
      r := Done(decided.value.value);
    }

    /** `body` is None when it is not an object with exactly a string status and a string feedback. */
    method Decide(actor: Actor, id: nat, body: Option<(string, string)>, now: string) returns (r: Reply<Row>)
      requires Valid()
      modifies repository, updates
      ensures Valid() && S.Preserves(old(Store()), Store())
      ensures r.Done? <==>
          actor.Reviewer? && body.Some? && (body.value.0 == "approved" || body.value.0 == "rejected")
              && 1 <= Length(Trim(body.value.1)) <= 2000
                           && id in old(repository.reviews) && old(repository.reviews)[id].status.PENDING?
      ensures r.Done? ==>
          (Store(), S.Ok(Some(r.value))) == S.DecideReview(old(Store()), id, ParseDecision(body.value.0).value,
          Trim(body.value.1), actor.id, now)
      ensures r.Done? ==>
          && (r.value.status == S.APPROVED <==> body.value.0 == "approved")
          && (r.value.status == S.REJECTED <==> body.value.0 == "rejected")
          && r.value.feedback.Some? && IsTrimmed(body.value.1, r.value.feedback.value)
          && r.value.reviewerId == Some(actor.id) && r.value.decidedAt == Some(now)
          && repository.reviews == old(repository.reviews)[id := r.value]
          && r.value.runId == old(repository.reviews)[id].runId
          && r.value.researcherId == old(repository.reviews)[id].researcherId
      ensures r.Done? ==> updates.subscribers == Announced(old(updates.subscribers), r.value.researcherId)
      ensures r.Failed? ==> Store() == old(Store()) && updates.subscribers == old(updates.subscribers)
      ensures r.Failed? ==>
          r.status == if !actor.Reviewer? then 403 else if Accepted(body).None? then 400
              else if id in old(repository.reviews) then 409 else 404
    {
      hide Accepted, Trim, IsTrimmed, Length, S.DecideReview, S.NonBlank, Announced;
      if !actor.Reviewer? { return Failed(403); }
      var decision := Accepted(body);
      if decision.None? { return Failed(400); }
      r := Settle(actor, id, decision.value.0, decision.value.1, now);
    }
  }

  /**
   The publish filter covers every write: whoever's list a submission changes is announced to, so each of
   that actor's subscribers has a token when the submission is answered.
   */
  lemma SubmitReachesEveryChangedList(s: S.Store, runId: nat, researcherId: string, me: Actor, subscribers: Subscribers,
      id: nat)
    requires S.StoreOk(s) && id in subscribers && subscribers[id].actor == me
    requires ListFor(me, TableOf(S.CreateReview(s, runId, researcherId).0)) != ListFor(me, TableOf(s))
    ensures Announced(subscribers, researcherId)[id].token
  {
    CreateReviewIsSubmit(s, runId, researcherId);
    RowsAreReviews(s, s.nextReview);
    var (t, r) := S.CreateReview(s, runId, researcherId);
    WriteGrows(TableOf(s), Write.Submit(r.value));
    if !Concerns(me, researcherId) {
      UnannouncedChangesNothing(me, TableOf(s), TableOf(t), researcherId);
    }
  }

  lemma DecideReachesEveryChangedList(s: S.Store, id: nat, status: S.Status, feedback: string, reviewerId: string,
      now: string,
      me: Actor, subscribers: Subscribers, subscriber: nat)
    requires S.StoreOk(s) && subscriber in subscribers && subscribers[subscriber].actor == me
    requires ListFor(me, TableOf(S.DecideReview(s, id, status, feedback, reviewerId, now).0)) != ListFor(me, TableOf(s))
    ensures var (t, r) := S.DecideReview(s, id, status, feedback, reviewerId, now);
            r.Ok? && r.value.Some? && Announced(subscribers, r.value.value.researcherId)[subscriber].token
  {
    DecideReviewIsDecide(s, id, status, feedback, reviewerId, now);
    RowsAreReviews(s, s.nextReview);
    var (t, r) := S.DecideReview(s, id, status, feedback, reviewerId, now);
    var w: Write :| w.Decide? && w.review == r.value.value && WriteOk(TableOf(s), w)
      && TableOf(t) == Applied(TableOf(s), w);
    WriteGrows(TableOf(s), w);
    if !Concerns(me, w.review.researcherId) {
      UnannouncedChangesNothing(me, TableOf(s), TableOf(t), w.review.researcherId);
    }
  }
}

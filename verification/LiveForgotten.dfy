/**
 The exception of module LiveExact happens: one run in which everything works except a live read, and
 nothing tells the user that the list is old.
 */
module LiveForgotten {
  import opened Wrappers
  import opened ReviewClient
  import opened ReviewTable
  import opened ReviewLive
  import opened LiveConvergence
  import opened LiveExact

  function TwoVersions(v: Row): seq<Version> {
    [Version([], "", 0), Version([v], v.researcherId, 0)]
  }

  /** The session has loaded the empty list. */
  function Loaded(me: Actor): State {
    State(me, [Version([], "", 0)], {}, map[], 0, None, true, false, Client([], false, 0, 2, false, true, map[]), map[],
      None, Log(4, 0, 3, 0, 0, 3, 0, None, Some(0), map[], [Lifetime(1, 3, 0)]))
  }

  /** And someone has submitted `v`. */
  function Submitted(me: Actor, v: Row): State {
    Loaded(me).(versions := TwoVersions(v), unpublished := {1}, log := Loaded(me).log.(clock := 5))
  }

  function Served(me: Actor): State {
    Initial(me, []).(task := Some(Loading(Stamp(1, 0, Some(0)))), log := Initial(me, []).log.(clock := 3))
  }

  lemma Serves(me: Actor)
    ensures Next(Initial(me, []), ServeLoad) == Served(me)
  {
  }

  lemma LoadEnds(me: Actor)
    ensures FinishLoad(Served(me), Stamp(1, 0, Some(0)), 0).(log := Loaded(me).log) == Loaded(me)
    ensures FinishLoad(Served(me), Stamp(1, 0, Some(0)), 0).log == Loaded(me).log.(clock := 3)
  {
    assert Scoped(me, []) == [] && Received(me, [], 0) == map[] && TableAt(Served(me), 0) == [];
    hide Scoped, Received, TableAt;
  }

  lemma Loads(me: Actor)
    ensures Next(Served(me), TaskDone) == Loaded(me)
  {
    LoadEnds(me);
    hide FinishLoad;
  }

  lemma Submits(me: Actor, v: Row)
    requires v.status.PENDING?
    ensures Next(Loaded(me), WriteBySomeone(Submit(v))) == Submitted(me, v)
  {
    assert Applied([], Submit(v)) == [v];
  }

  lemma LoadsThenSubmits(me: Actor, v: Row)
    requires v.status.PENDING?
    ensures Run(Initial(me, []), [ServeLoad, TaskDone, WriteBySomeone(Submit(v))]) == Submitted(me, v)
  {
    hide Next, Run, Initial, Served, Loaded, Submitted;
    Serves(me);
    Loads(me);
    Submits(me, v);
    RunThree(Initial(me, []), ServeLoad, TaskDone, WriteBySomeone(Submit(v)));
  }

  /** The write was announced before the session's socket subscribed. */
  function Joined(me: Actor, v: Row): State {
    Submitted(me, v).(unpublished := {}, sockets := map[0 := Socket(Subscribed, false, false, [])], nextSocket := 1,
        current := Some(0),
      log := Submitted(me, v).log.(clock := 8))
  }

  lemma PublishesThenSubscribes(me: Actor, v: Row)
    ensures Run(Submitted(me, v), [Publish(1), Connect, Subscribe(0)]) == Joined(me, v)
  {
    var s0 := Submitted(me, v);
    var s1 := Next(s0, Publish(1));
    assert s1 == s0.(unpublished := {}, log := s0.log.(clock := 6));
    var s2 := Next(s1, Connect);
    assert s2.sockets == map[0 := Socket(Opening, false, false, [])];
    assert Next(s2, Subscribe(0)).sockets == map[0 := Socket(Subscribed, false, false, [])];
    RunThree(s0, Publish(1), Connect, Subscribe(0));
    hide Run;
  }

  /** `ready` has started a live read, and the user has begun to submit a run. */
  function Submitting(me: Actor, v: Row): State {
    Joined(me, v).(sockets := map[0 := Socket(Live, false, false, [])],
        client := Client([], false, 1, 3, true, true, map[1 := 2]),
      live := map[1 := Stamp(9, 1, None)], task := Some(Writing(Stamp(10, 1, None), SubmitRun(0), 0)),
      log := Joined(me, v).log.(clock := 11, lastChanged := 9, changedAt := 1, lastWork := 10))
  }

  lemma ReadsThenBegins(me: Actor, v: Row)
    ensures Run(Joined(me, v), [SendReady(0), Receive(0), StartWrite(SubmitRun(0))]) == Submitting(me, v)
  {
    var s0 := Joined(me, v);
    var s1 := Next(s0, SendReady(0));
    assert Sender(s0.sockets[0], SendReady(0), true) == Socket(Live, false, false, [ReadyFrame]);
    assert s1 == s0.(sockets := map[0 := Socket(Live, false, false, [ReadyFrame])], log := s0.log.(clock := 9));
    var s2 := Next(s1, Receive(0));
    assert s1.sockets[0].frames[1..] == [];
    assert s2 == s1.(sockets := map[0 := Socket(Live, false, false, [])],
      client := Client([], false, 1, 2, false, true, map[1 := 2]),
                     live := map[1 := Stamp(9, 1, None)], log := s1.log.(clock := 10, lastChanged := 9,
                         changedAt := 1));
    RunThree(s0, SendReady(0), Receive(0), StartWrite(SubmitRun(0)));
    hide Run;
  }

  function Failing(me: Actor, v: Row): State {
    Submitting(me, v).(client := Client([], false, 1, 3, true, true, map[]), live := map[],
      log := Submitting(me, v).log.(clock := 12, failure := Some(Failure(false, true))))
  }

  lemma ReadFails(me: Actor, v: Row)
    ensures Next(Submitting(me, v), Fail(1)) == Failing(me, v)
  {
  }

  lemma SubmissionEnds(me: Actor, v: Row)
    ensures var t := Next(Next(Failing(me, v), TaskFails), Effect);
            AtRest(t) && t.log.failure == Some(Failure(false, true)) && t.client.shown == []
                && t.versions == TwoVersions(v) && t.me == me
  {
  }

  lemma ReadFailsBehindSubmit(me: Actor, v: Row)
    ensures var t := Run(Submitting(me, v), [Fail(1), TaskFails, Effect]);
            AtRest(t) && t.log.failure == Some(Failure(false, true)) && t.client.shown == []
                && t.versions == TwoVersions(v) && t.me == me
  {
    hide Next, Run, Submitting, Failing, AtRest;
    ReadFails(me, v);
    SubmissionEnds(me, v);
    RunThree(Submitting(me, v), Fail(1), TaskFails, Effect);
  }

  /**
   The catch at client/src/ReviewWorkspace.tsx:83-85 forgets a live read that fails behind a foreground
   operation. The list was loaded without error, the only error reported is that the user's submission
   was refused, and the session, connected and at rest, shows nothing of a submitted review.
   */
  lemma ForgottenFailure(me: Actor, v: Row)
    requires v.status.PENDING? && InScope(me, v)
    ensures var s1 := Run(Initial(me, []), [ServeLoad, TaskDone, WriteBySomeone(Submit(v))]);
            var s2 := Run(s1, [Publish(1), Connect, Subscribe(0)]);
            var s3 := Run(s2, [SendReady(0), Receive(0), StartWrite(SubmitRun(0))]);
            var s := Run(s3, [Fail(1), TaskFails, Effect]);
            AtRest(s) && s.log.failure.Some? && !Reported(s.log) && s.client.shown == [] && v in ListFor(me, Top(s))
  {
    LoadsThenSubmits(me, v);
    PublishesThenSubscribes(me, v);
    ReadsThenBegins(me, v);
    ReadFailsBehindSubmit(me, v);
    hide Run;
    ListContains(me, [v]);
  }
}

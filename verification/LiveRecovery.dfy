/**
 A review session can always come to rest: from every reachable moment at which it is still authorized,
 publishing what is due, letting what is outstanding fail and reconnecting once leads to a connected
 session with nothing outstanding, which therefore shows the server's list.
 */
module LiveRecovery {
  import opened ReviewClient
  import opened ReviewTable
  import opened ReviewLive
  import opened LiveSafety
  import opened LiveConvergence
  import opened LiveExact

  /** The same session over the same versions, as authorized as before. */
  ghost predicate Continues(s: State, t: State) {
    t.me == s.me && t.versions == s.versions && t.authorized == s.authorized && t.ended == s.ended
  }

  // ----- letting go of what is outstanding

  lemma PublishNext(s: State, k: nat)
    requires !s.ended
    ensures var t := Next(s, Publish(k));
        Continues(s, t) && t.unpublished == s.unpublished - {k} && t.task == s.task && t.client == s.client
        && t.live == s.live
  {
    hide SignalAll, Concerns;
  }

  lemma {:induction false} PublishAll(s: State) returns (actions: seq<Action>)
    requires !s.ended
    ensures var t := Run(s, actions);
        Continues(s, t) && t.unpublished == {} && t.task == s.task && t.client == s.client && t.live == s.live
    decreases |s.unpublished|
  {
    hide Next;
    if s.unpublished == {} {
      actions := [];
    } else {
      var k :| k in s.unpublished;
      PublishNext(s, k);
      var rest := PublishAll(Next(s, Publish(k)));
      actions := [Publish(k)] + rest;
      assert actions[0] == Publish(k) && actions[1..] == rest;
    }
  }

  lemma StopTask(s: State)
    requires !s.ended && (s.task.Some? <==> s.client.working) && ClientOk(s.client)
    ensures var t := Next(s, TaskFails);
            Continues(s, t) && t.unpublished == s.unpublished && t.task.None? && !t.client.working
                && (t.client.dirty ==> t.client.drainDue)
  {
  }

  lemma RunEffect(s: State)
    requires !s.ended && s.task.None? && !s.client.working && (s.client.dirty ==> s.client.drainDue)
    ensures var t := Next(s, Effect);
            Continues(s, t) && t.unpublished == s.unpublished && t.task.None? && !t.client.working && !t.client.drainDue
                && !t.client.dirty
  {
  }

  lemma StopWork(s: State)
    requires !s.ended && Inv(s)
    ensures var t := Next(Next(s, TaskFails), Effect);
            Continues(s, t) && t.unpublished == s.unpublished && t.task.None? && !t.client.working && !t.client.drainDue
                && !t.client.dirty
  {
    hide VersionsOk, ShownOk, LogOk, ReadsStamped, ReadOrdered, ClientOk, Next;
    StopTask(s);
    RunEffect(Next(s, TaskFails));
  }

  lemma FailedRead(s: State, n: nat)
    requires n in s.live && s.live.Keys == s.client.inFlight.Keys
    ensures var t := FailRead(s, n);
            && t == s.(live := t.live, client := t.client, log := t.log)
            && t.live.Keys == s.live.Keys - {n} && t.live.Keys == t.client.inFlight.Keys
            && t.client == s.client.(inFlight := t.client.inFlight)
  {
    hide Applies;
  }

  lemma FailNext(s: State, n: nat)
    requires !s.ended && n in s.live && s.live.Keys == s.client.inFlight.Keys
    ensures var t := Next(s, Fail(n));
            Continues(s, t) && t.unpublished == s.unpublished && t.task == s.task && t.live.Keys == s.live.Keys - {n}
                && t.live.Keys == t.client.inFlight.Keys
            && t.client.working == s.client.working && t.client.drainDue == s.client.drainDue
                && t.client.dirty == s.client.dirty
  {
    FailedRead(s, n);
    hide FailRead;
  }

  lemma {:induction false} FailAll(s: State) returns (actions: seq<Action>)
    requires !s.ended && s.live.Keys == s.client.inFlight.Keys
    ensures var t := Run(s, actions);
            Continues(s, t) && t.unpublished == s.unpublished && t.task == s.task && t.live == map[]
                && t.client.inFlight == map[]
            && t.client.working == s.client.working && t.client.drainDue == s.client.drainDue
                && t.client.dirty == s.client.dirty
    decreases s.live.Keys
  {
    hide Next;
    if s.live.Keys == {} {
      actions := [];
      assert s.live == map[] && s.client.inFlight == map[];
    } else {
      var n :| n in s.live.Keys;
      FailNext(s, n);
      var rest := FailAll(Next(s, Fail(n)));
      actions := [Fail(n)] + rest;
      assert actions[0] == Fail(n) && actions[1..] == rest;
    }
  }

  // ----- reconnecting

  /** Nothing outstanding on the client's side, and nothing unpublished. */
  ghost predicate Calm(s: State) {
    !s.ended && s.authorized && s.unpublished == {} && s.task.None? && s.live == map[] && s.client.inFlight == map[]
    && !s.client.working && !s.client.drainDue && !s.client.dirty
  }

  ghost predicate On(s: State, k: Socket) {
    s.current.Some? && s.current.value in s.sockets && s.sockets[s.current.value] == k
  }

  lemma Connects(s: State)
    requires Calm(s)
    ensures var t := Next(s, Connect); Calm(t) && Continues(s, t) && On(t, Socket(Opening, false, false, []))
  {
  }

  lemma Subscribes(s: State)
    requires Calm(s) && On(s, Socket(Opening, false, false, []))
    ensures var t := Next(s, Subscribe(s.current.value));
        Calm(t) && Continues(s, t) && On(t, Socket(Subscribed, false, false, []))
  {
  }

  lemma GetsReady(s: State)
    requires Calm(s) && On(s, Socket(Subscribed, false, false, []))
    ensures var t := Next(s, SendReady(s.current.value));
        Calm(t) && Continues(s, t) && On(t, Socket(Live, false, false, [ReadyFrame]))
  {
    assert [] + [ReadyFrame] == [ReadyFrame];
  }

  /** One live read in flight, which will be shown. */
  ghost predicate Reading(s: State, n: nat) {
    !s.ended && s.authorized && s.unpublished == {} && s.task.None? && !s.client.working && !s.client.drainDue
        && !s.client.dirty && s.log.failure.None?
    && s.live.Keys == {n} && s.client.inFlight.Keys == {n} && Applies(s.client, n)
        && On(s, Socket(Live, false, false, []))
  }

  lemma StartsReading(s: State)
    requires Calm(s) && On(s, Socket(Live, false, false, [ReadyFrame]))
    ensures var t := Next(s, Receive(s.current.value));
        Continues(s, t) && Reading(t, t.client.latest) && t.live[t.client.latest].served.None?
  {
    assert [ReadyFrame][1..] == [];
  }

  lemma Serves(s: State, n: nat)
    requires Reading(s, n) && s.live[n].served.None?
    ensures var t := Next(s, Serve(n)); Continues(s, t) && Reading(t, n) && t.live[n].served.Some?
  {
  }

  lemma Shows(s: State, n: nat)
    requires Reading(s, n) && s.live[n].served.Some?
    ensures var t := Next(s, Answer(n)); Continues(s, t) && AtRest(t) && t.log.failure.None?
  {
    hide Scoped, TableAt;
  }

  lemma Reconnects(s: State) returns (actions: seq<Action>)
    requires Calm(s)
    ensures var t := Run(s, actions); Continues(s, t) && AtRest(t) && t.log.failure.None?
  {
    hide Next, Calm, Reading, On, AtRest;
    Connects(s);
    var s1 := Next(s, Connect);
    Subscribes(s1);
    var s2 := Next(s1, Subscribe(s1.current.value));
    GetsReady(s2);
    var s3 := Next(s2, SendReady(s2.current.value));
    StartsReading(s3);
    var s4 := Next(s3, Receive(s3.current.value));
    var read := s4.client.latest;
    Serves(s4, read);
    var s5 := Next(s4, Serve(read));
    Shows(s5, read);
    actions := [Connect, Subscribe(s1.current.value), SendReady(s2.current.value)]
        + [Receive(s3.current.value), Serve(read), Answer(read)];
    RunThree(s, Connect, Subscribe(s1.current.value), SendReady(s2.current.value));
    RunThree(s3, Receive(s3.current.value), Serve(read), Answer(read));
    RunTwice(s, [Connect, Subscribe(s1.current.value), SendReady(s2.current.value)],
        [Receive(s3.current.value), Serve(read), Answer(read)]);
  }

  lemma KeysMatch(s: State)
    requires Inv(s)
    ensures s.live.Keys == s.client.inFlight.Keys
  {
    hide VersionsOk, ShownOk, LogOk, TaskOk, ReadOrdered, ClientOk;
  }

  lemma IsCalm(s: State)
    requires !s.ended && s.authorized && s.unpublished == {} && s.task.None? && s.live == map[]
        && s.client.inFlight == map[]
    requires !s.client.working && !s.client.drainDue && !s.client.dirty
    ensures Calm(s)
  {
  }

  lemma ComesToRest(s: State) returns (actions: seq<Action>)
    requires Inv(s) && !s.ended && s.authorized
    ensures var t := Run(s, actions); Continues(s, t) && AtRest(t) && t.log.failure.None?
  {
    hide Inv, Next, Run, AtRest, Calm;
    var publishing := PublishAll(s);
    var s1 := Run(s, publishing);
    RunKeepsInv(s, publishing);
    StopWork(s1);
    NextKeepsInv(s1, TaskFails);
    NextKeepsInv(Next(s1, TaskFails), Effect);
    var s2 := Next(Next(s1, TaskFails), Effect);
    KeysMatch(s2);
    var failing := FailAll(s2);
    var s3 := Run(s2, failing);
    IsCalm(s3);
    var connecting := Reconnects(s3);
    RunOnce(s1, TaskFails);
    RunOnce(Next(s1, TaskFails), Effect);
    RunTwice(s, publishing, [TaskFails]);
    RunTwice(s, publishing + [TaskFails], [Effect]);
    RunTwice(s, publishing + [TaskFails] + [Effect], failing);
    RunTwice(s, publishing + [TaskFails] + [Effect] + failing, connecting);
    actions := publishing + [TaskFails] + [Effect] + failing + connecting;
  }

  /**
   From every moment of a session that is still authorized, some steps that write nothing bring it to
   rest, and it then shows exactly the list of the reviews as they were at that moment.
   */
  lemma SessionCanComeToRest(me: Actor, table: Table, before: seq<Action>) returns (after: seq<Action>)
    requires UniqueIds(table) && !Run(Initial(me, table), before).ended && Run(Initial(me, table), before).authorized
    ensures var s := Run(Initial(me, table), before);
            var t := Run(s, after);
            AtRest(t) && t.log.failure.None? && t.versions == s.versions && t.client.shown == ListFor(me, Top(s))
  {
    hide Inv, Next, Run, AtRest, Sound, ListFor;
    var s := Run(Initial(me, table), before);
    InitialOk(me, table);
    RunKeepsInv(Initial(me, table), before);
    after := ComesToRest(s);
    RunTwice(Initial(me, table), before, after);
    SessionAtRestShowsTheServersList(me, table, before + after);
  }
}

/**
 When a review session shows the server's list, exactly, over every run of module ReviewLive: what
 being at rest guarantees, which writes a list that differs has missed, and when the client has not
 reported that it may differ.
 */
module LiveExact {
  import opened Wrappers
  import opened ReviewClient
  import opened ReviewTable
  import opened ReviewLive
  import opened LiveSafety
  import opened LiveConvergence
  import opened LiveRows

  // ----- what a live subscription has been told

  /** With a live subscription, any news since the last `changed` callback is on its way to the client. */
  ghost predicate Told(s: State) {
    HasSubscription(s) ==>
      Unpublished(s.me, s.versions, s.unpublished) || InPipe(s.sockets[s.current.value])
      || Fresh(s.me, s.versions, s.log.changedAt)
  }

  lemma SameServerTold(s: State, t: State)
    requires Told(s) && SameServer(s, t)
    ensures Told(t)
  {
    hide Unpublished, Fresh, InPipe, IsSubscribed;
  }

  lemma PersistTold(s: State, a: Action)
    requires Told(s) && !s.ended && (a.WriteBySomeone? || a.ServeWrite?)
    ensures Told(Next(s, a))
  {
    var w := a.write;
    PersistNews(s.me, s.versions, s.unpublished, Version(Applied(Top(s), w), w.review.researcherId, RowOf(Top(s), w)));
    hide Unpublished, Fresh, InPipe, IsSubscribed, Applied, Top, RowOf, WriteOk, Asked, Concerns;
  }

  lemma PublishTold(s: State, k: nat)
    requires Told(s)
    ensures Told(PublishVersion(s, k))
  {
    hide Unpublished, Fresh;
    if k in s.unpublished && Unpublished(s.me, s.versions, s.unpublished)
        && (k < |s.versions| ==> !Concerns(s.me, s.versions[k].touched)) {
      PublishedNews(s.me, s.versions, s.unpublished, k);
    }
  }

  lemma SenderTold(s: State, n: nat, a: Action)
    requires Told(s)
    ensures Told(ServerStep(s, n, a))
  {
    if n in s.sockets { SenderKeepsPipe(s.sockets[n], a, s.authorized); }
    hide Unpublished, Fresh, InPipe, IsSubscribed, Sender;
  }

  lemma ReceiveTold(s: State, n: nat)
    requires Told(s)
    ensures Told(ReceiveFrame(s, n))
  {
    if n in s.sockets && s.sockets[n].frames != [] {
      if !s.sockets[n].frames[0].ReadyFrame? && !s.sockets[n].frames[0].ChangedFrame? {
        PopKeepsPipe(s.sockets[n]);
        hide Unpublished, Fresh, InPipe, Changed;
      } else if s.current == Some(n) {
        assert Fresh(s.me, s.versions, V(s));
        hide Unpublished, Fresh, InPipe, Changed;
      } else {
        hide Unpublished, Fresh, InPipe, Changed;
      }
    }
  }

  lemma SocketTold(s: State, a: Action)
    requires Told(s) && (a.Revoke? || a.Connect? || a.Lose?)
    ensures Told(Act(s, a))
  {
    hide Unpublished, Fresh;
  }

  lemma TickTold(s: State, t: State)
    requires Told(t)
    ensures Told(Ticked(s, t))
  {
    hide Unpublished, Fresh, InPipe, IsSubscribed;
  }

  lemma NextKeepsTold(s: State, a: Action)
    requires Told(s)
    ensures Told(Next(s, a))
  {
    hide Told, SameServer, ServerStep, PublishVersion, ReceiveFrame;
    if s.ended {
    } else if a.WriteBySomeone? || a.ServeWrite? {
      PersistTold(s, a);
    } else {
      if a.StartLoad? || a.StartWrite? || a.ServeLoad? || a.Refused? || a.TaskFails? || a.TaskDone? {
        OperationSameServer(s, a);
        SameServerTold(s, Act(s, a));
      } else if a.Serve? || a.Answer? || a.Fail? || a.Effect? || a.Expire? || a.Leave? {
        ReadSameServer(s, a);
        SameServerTold(s, Act(s, a));
      } else if a.Receive? {
        ReceiveTold(s, a.socket);
      } else if a.Publish? {
        PublishTold(s, a.version);
      } else if a.Revoke? || a.Connect? || a.Lose? {
        SocketTold(s, a);
      } else {
        SenderTold(s, a.socket, a);
      }
      TickTold(s, Act(s, a));
    }
  }

  // ----- which failures are reported

  /** A read's counter is still current if and only if no operation has begun or ended since it started. */
  ghost predicate Overlaps(c: Client, live: map<nat, Stamp>, lastWork: nat) {
    forall n :: n in live && n in c.inFlight ==> (c.inFlight[n] == c.foreground <==> live[n].time > lastWork)
  }

  ghost predicate ReportsOk(s: State) {
    s.log.lastWork < s.log.clock && Overlaps(s.client, s.live, s.log.lastWork)
    && (s.log.failure.Some? ==> (s.log.failure.value.reported <==> !s.log.failure.value.overlapped))
  }

  lemma StampsAreOld(s: State)
    requires Inv(s)
    ensures s.live.Keys == s.client.inFlight.Keys && ReadsOk(s.client) && ClientOk(s.client)
    ensures forall n :: n in s.live ==> s.live[n].time < s.log.clock
  {
    hide VersionsOk, ShownOk, LogOk, ReadOrdered, TaskOk;
  }

  /** Beginning or ending an operation outdates every read. */
  lemma WorkedReports(s: State, t: State)
    requires ReportsOk(s) && ReadsOk(s.client) && forall n :: n in s.live ==> s.live[n].time < s.log.clock
    requires t.live == s.live && t.client.inFlight == s.client.inFlight
        && t.client.foreground == s.client.foreground + 1
    requires t.log.lastWork == s.log.clock && t.log.failure == s.log.failure
    ensures ReportsOk(Ticked(s, t))
  {
  }

  lemma SameReports(s: State, t: State)
    requires ReportsOk(s) && t.client.inFlight == s.client.inFlight && t.client.foreground == s.client.foreground
    requires t.live == s.live && t.log.lastWork == s.log.lastWork && t.log.failure == s.log.failure
    ensures ReportsOk(Ticked(s, t))
  {
  }

  /** A read that is started belongs to the current counter. */
  lemma TrackReports(s: State, d: Client)
    requires ReportsOk(s) && d.foreground == s.client.foreground
    requires d.latest == s.client.latest ==> d.inFlight == s.client.inFlight
    requires d.latest != s.client.latest ==> d.inFlight == s.client.inFlight[d.latest := d.foreground]
    ensures ReportsOk(Ticked(s, Track(s, d)))
  {
    hide V;
  }

  lemma SettledReports(s: State, n: nat)
    requires ReportsOk(s)
    ensures ReportsOk(s.(live := Without(s.live, n), client := Settled(s.client, n)))
  {
  }

  lemma FailReports(s: State, n: nat)
    requires ReportsOk(s) && s.live.Keys == s.client.inFlight.Keys
    ensures ReportsOk(Ticked(s, FailRead(s, n)))
  {
    SettledReports(s, n);
    hide Settled, Without;
  }

  lemma AnswerReports(s: State, n: nat)
    requires ReportsOk(s) && s.live.Keys == s.client.inFlight.Keys && ClientOk(s.client)
    ensures ReportsOk(Ticked(s, AnswerRead(s, n)))
  {
    hide ReportsOk, ClientOk;
    if n !in s.live || s.live[n].served.None? {
      SameReports(s, s);
    } else if Applies(s.client, n) {
      ShownReports(s, n);
    } else {
      DroppedReports(s, n);
    }
  }

  lemma ShownReports(s: State, n: nat)
    requires ReportsOk(s) && n in s.live && s.live[n].served.Some? && Applies(s.client, n)
    ensures ReportsOk(Ticked(s, AnswerRead(s, n)))
  {
    hide ReportsOk, Scoped, TableAt, Received, V, Without;
    SettledReports(s, n);
    var t := s.(live := Without(s.live, n), client := Settled(s.client, n));
    SameReports(t, AnswerRead(s, n));
  }

  lemma DroppedReports(s: State, n: nat)
    requires ReportsOk(s) && ClientOk(s.client) && n in s.live && n in s.client.inFlight && s.live[n].served.Some?
        && !Applies(s.client, n)
    ensures ReportsOk(Ticked(s, AnswerRead(s, n)))
  {
    hide ReportsOk, ClientOk, ReadOk, Settled, Track, AnswerRead, Ticked, Scoped, Without, TableAt;
    var t := s.(live := Without(s.live, n), client := Settled(s.client, n));
    var next := Scoped(s.me, TableAt(s, s.live[n].served.value));
    SettledReports(s, n);
    DroppedCalls(s.client, n, next);
    DroppedTracks(s, n);
    TrackReports(t, ReadOk(s.client, n, next));
    SameClock(s, t, AnswerRead(s, n));
  }

  /** A frame that calls the client back. */
  predicate Notice(s: State, n: nat) {
    n in s.sockets && s.sockets[n].frames != [] && s.current == Some(n)
    && (s.sockets[n].frames[0].ReadyFrame? || s.sockets[n].frames[0].ChangedFrame?)
  }

  function Noticed(s: State, n: nat): State
    requires n in s.sockets && s.sockets[n].frames != []
  {
    s.(sockets := s.sockets[n := s.sockets[n].(frames := s.sockets[n].frames[1..])],
       log := s.log.(lastChanged := s.log.clock, changedAt := V(s)))
  }

  lemma NoticeTracks(s: State, n: nat)
    requires Notice(s, n)
    ensures ReceiveFrame(s, n) == Track(Noticed(s, n), Changed(s.client)) && Noticed(s, n).log.clock == s.log.clock
  {
    hide Changed;
  }

  lemma ReceiveReports(s: State, n: nat)
    requires ReportsOk(s)
    ensures ReportsOk(Ticked(s, ReceiveFrame(s, n)))
  {
    hide ReportsOk, Changed, Track;
    if Notice(s, n) {
      NoticeTracks(s, n);
      NoticeReports(s, n);
    } else {
      SameReports(s, ReceiveFrame(s, n));
    }
  }

  lemma NoticeReports(s: State, n: nat)
    requires ReportsOk(s) && Notice(s, n)
    ensures ReportsOk(Ticked(s, Track(Noticed(s, n), Changed(s.client))))
  {
    hide Track, V;
    TrackReports(Noticed(s, n), Changed(s.client));
    SameClock(s, Noticed(s, n), Track(Noticed(s, n), Changed(s.client)));
  }

  /** The counter and the time of the last beginning or end of an operation move together. */
  ghost predicate WorksTogether(s: State, t: State) {
    t.live == s.live && t.client.inFlight == s.client.inFlight && t.log.failure == s.log.failure
    && ((t.client.foreground == s.client.foreground && t.log.lastWork == s.log.lastWork)
        || (t.client.foreground == s.client.foreground + 1 && t.log.lastWork == s.log.clock))
  }

  lemma EndsWork(s: State, stamp: Stamp, request: Request, at: nat, k: nat)
    ensures WorksTogether(s, FinishLoad(s, stamp, k)) && WorksTogether(s, FinishWrite(s, request, at, k))
  {
    hide Scoped, Patched, TableAt, Received, Answered, V;
  }

  lemma FinishWorks(s: State)
    ensures WorksTogether(s, FinishTask(s))
  {
    if s.task.Some? && s.task.value.stamp.served.Some? {
      var (request, at) := if s.task.value.Writing? then (s.task.value.request, s.task.value.at) else (SubmitRun(0), 0);
      EndsWork(s, s.task.value.stamp, request, at, s.task.value.stamp.served.value);
    }
    hide FinishLoad, FinishWrite, WorksTogether;
    assert WorksTogether(s, s) by { SameWork(s); }
  }

  lemma SameWork(s: State)
    ensures WorksTogether(s, s)
  {
  }

  lemma TaskWorks(s: State, task: Task, a: Action)
    ensures WorksTogether(s, Begin(s, task)) && WorksTogether(s, ServeTask(s, a)) && WorksTogether(s, RefuseTask(s))
    ensures WorksTogether(s, FailTask(s))
  {
    hide AlreadyDecided, Top, V, Asked, Applied, RowOf, NewStamp;
  }

  lemma OperationWorks(s: State, a: Action)
    requires a.StartLoad? || a.StartWrite? || a.ServeLoad? || a.ServeWrite? || a.Refused? || a.TaskFails? || a.TaskDone?
    ensures WorksTogether(s, Act(s, a))
  {
    hide WorksTogether, FinishTask, Begin, ServeTask, RefuseTask, FailTask, NewStamp;
    FinishWorks(s);
    TaskWorks(s, if a.StartWrite? then Writing(NewStamp(s), a.request, 0) else Loading(NewStamp(s)), a);
  }

  lemma OperationReports(s: State, a: Action)
    requires ReportsOk(s) && ReadsOk(s.client) && forall n :: n in s.live ==> s.live[n].time < s.log.clock
    requires a.StartLoad? || a.StartWrite? || a.ServeLoad? || a.ServeWrite? || a.Refused? || a.TaskFails? || a.TaskDone?
    ensures ReportsOk(Ticked(s, Act(s, a)))
  {
    hide ReportsOk, ReadsOk, Act;
    OperationWorks(s, a);
    if Act(s, a).client.foreground == s.client.foreground { SameReports(s, Act(s, a)); }
        else { WorkedReports(s, Act(s, a)); }
  }

  lemma ServeReports(s: State, n: nat)
    requires ReportsOk(s)
    ensures ReportsOk(Ticked(s, ServeRead(s, n)))
  {
  }

  /** The client, its requests and its times stay; the server's versions only grow. */
  lemma QuietStays(s: State, a: Action)
    requires a.WriteBySomeone? || Aside(a)
    ensures var t := Act(s, a);
            t.client == s.client && t.live == s.live && t.task == s.task && t.log == s.log && V(t) >= V(s)
  {
    if a.WriteBySomeone? {
      hide WriteOk, Applied, Top, RowOf;
    } else {
      AsideSameClient(s, a);
      hide Act;
    }
  }

  lemma QuietReports(s: State, a: Action)
    requires ReportsOk(s) && (a.WriteBySomeone? || Aside(a))
    ensures ReportsOk(Ticked(s, Act(s, a)))
  {
    hide ReportsOk, Act;
    QuietStays(s, a);
    SameReports(s, Act(s, a));
  }

  lemma NextKeepsReports(s: State, a: Action)
    requires Inv(s) && ReportsOk(s)
    ensures ReportsOk(Next(s, a))
  {
    hide Inv, ReportsOk, ReadsOk, ClientOk, ReceiveFrame, AnswerRead, FailRead, ServeRead, Track;
    StampsAreOld(s);
    if s.ended {
    } else if a.StartLoad? || a.StartWrite? || a.ServeLoad? || a.ServeWrite? || a.Refused? || a.TaskFails?
        || a.TaskDone? {
      OperationReports(s, a);
    } else if a.Receive? {
      ReceiveReports(s, a.socket);
    } else if a.Serve? {
      ServeReports(s, a.read);
    } else if a.Answer? {
      AnswerReports(s, a.read);
    } else if a.Fail? {
      FailReports(s, a.read);
    } else if a.Effect? {
      EffectReports(s);
    } else {
      QuietReports(s, a);
    }
  }

  lemma EffectReports(s: State)
    requires ReportsOk(s)
    ensures ReportsOk(Ticked(s, Track(s, WorkEnded(s.client))))
  {
    hide ReportsOk;
    TrackReports(s, WorkEnded(s.client));
  }

  // ----- lists loaded since the last callback

  /** A request made since the last `changed` callback was made at that callback's version or a later one. */
  ghost predicate Since(r: Stamp, lastChanged: nat, changedAt: nat) {
    r.time >= lastChanged ==> r.version >= changedAt
  }

  ghost predicate LiveSince(live: map<nat, Stamp>, lastChanged: nat, changedAt: nat) {
    forall n :: n in live ==> Since(live[n], lastChanged, changedAt)
  }

  /** The snapshot shown is the last read that was shown. */
  ghost predicate ShownSince(log: Log) {
    log.shownAt.Some? ==>
      log.applied != [] && var last := log.applied[|log.applied| - 1];
      last.version == log.shownAt.value && (last.started >= log.lastChanged ==> last.version >= log.changedAt)
  }

  ghost predicate TimesOk(s: State) {
    s.log.changedAt <= V(s) && LiveSince(s.live, s.log.lastChanged, s.log.changedAt) && ShownSince(s.log)
    && (s.task.Some? ==> Since(s.task.value.stamp, s.log.lastChanged, s.log.changedAt))
  }

  ghost predicate SameShown(a: Log, b: Log) {
    b.shownAt == a.shownAt && b.applied == a.applied && b.lastChanged == a.lastChanged && b.changedAt == a.changedAt
  }

  lemma SameTimesOk(s: State, t: State)
    requires TimesOk(s) && t.live == s.live && t.task == s.task && V(t) >= V(s) && SameShown(s.log, t.log)
    ensures TimesOk(t)
  {
    hide V;
  }

  /** A request that starts now is stamped with the newest version. */
  lemma NewStampSince(s: State)
    requires TimesOk(s)
    ensures Since(NewStamp(s), s.log.lastChanged, s.log.changedAt)
  {
  }

  lemma TrackTimes(s: State, d: Client)
    requires TimesOk(s)
    ensures TimesOk(Ticked(s, Track(s, d)))
  {
    NewStampSince(s);
    hide Since, ShownSince;
  }

  lemma SettledTimes(s: State, n: nat)
    requires TimesOk(s)
    ensures TimesOk(s.(live := Without(s.live, n), client := Settled(s.client, n)))
  {
    hide Since, ShownSince;
  }

  /** A callback leaves every earlier request before it. */
  lemma NoticeTimes(s: State, t: State)
    requires TimesOk(s) && t == s.(sockets := t.sockets, log := s.log.(lastChanged := s.log.clock, changedAt := V(s)))
    requires LogOk(s.log) && (forall n :: n in s.live ==> s.live[n].time < s.log.clock)
    requires s.task.Some? ==> s.task.value.stamp.time < s.log.clock
    ensures TimesOk(t)
  {
    if s.log.applied != [] { assert s.log.applied[|s.log.applied| - 1].started < s.log.clock; }
  }

  lemma ReceiveTimes(s: State, n: nat)
    requires TimesOk(s) && LogOk(s.log) && (forall n :: n in s.live ==> s.live[n].time < s.log.clock)
    requires s.task.Some? ==> s.task.value.stamp.time < s.log.clock
    ensures TimesOk(Ticked(s, ReceiveFrame(s, n)))
  {
    hide TimesOk, LogOk, Changed, Track;
    if Notice(s, n) {
      var t := Noticed(s, n);
      NoticeTimes(s, t);
      NoticeTracks(s, n);
      hide ReceiveFrame, Noticed;
      TrackTimes(t, Changed(s.client));
    } else {
      SameTimesOk(s, Ticked(s, ReceiveFrame(s, n)));
    }
  }

  /** What is shown was served at the version of its request or a later one. */
  lemma RecordedTimes(s: State, t: State, r: Stamp, k: nat)
    requires TimesOk(s) && Since(r, s.log.lastChanged, s.log.changedAt) && r.version <= k
    requires t.log.shownAt == Some(k) && t.log.applied == s.log.applied + [Lifetime(r.time, s.log.clock, k)]
    requires t.log.lastChanged == s.log.lastChanged && t.log.changedAt == s.log.changedAt && V(t) == V(s)
    requires t.task.None? || t.task == s.task
    requires t.live == s.live
    ensures TimesOk(t)
  {
    hide V;
  }

  lemma FinishTimes(s: State)
    requires TimesOk(s)
    requires s.task.Some? && s.task.value.stamp.served.Some? ==>
        s.task.value.stamp.version <= s.task.value.stamp.served.value
    ensures TimesOk(Ticked(s, FinishTask(s)))
  {
    if s.task.Some? && s.task.value.Loading? && s.task.value.stamp.served.Some? {
      hide TimesOk, Since, Scoped, TableAt, Received, V;
      assert Since(s.task.value.stamp, s.log.lastChanged, s.log.changedAt) by { TaskSince(s); }
      assert V(Ticked(s, FinishTask(s))) == V(s) by { SameVersions(s, Ticked(s, FinishTask(s))); }
      RecordedTimes(s, Ticked(s, FinishTask(s)), s.task.value.stamp, s.task.value.stamp.served.value);
    } else {
      hide Since, TableAt, Patched, Answered;
    }
  }

  lemma TaskSince(s: State)
    requires TimesOk(s) && s.task.Some?
    ensures Since(s.task.value.stamp, s.log.lastChanged, s.log.changedAt)
  {
  }

  lemma SameVersions(s: State, t: State)
    requires s.versions == t.versions
    ensures V(s) == V(t)
  {
  }

  lemma AnswerTimes(s: State, n: nat)
    requires TimesOk(s) && (n in s.live && s.live[n].served.Some? ==> s.live[n].version <= s.live[n].served.value)
    ensures TimesOk(Ticked(s, AnswerRead(s, n)))
  {
    if n !in s.live || n !in s.client.inFlight || s.live[n].served.None? {
      hide TimesOk;
      SameTimesOk(s, Ticked(s, s));
    } else {
      var t := s.(live := Without(s.live, n), client := Settled(s.client, n));
      assert Since(s.live[n], s.log.lastChanged, s.log.changedAt);
      SettledTimes(s, n);
      if Applies(s.client, n) {
        hide TimesOk, Since, Scoped, TableAt, Received, V, Without, Settled;
        assert V(Ticked(s, AnswerRead(s, n))) == V(t) by { SameVersions(t, Ticked(s, AnswerRead(s, n))); }
        RecordedTimes(t, Ticked(s, AnswerRead(s, n)), s.live[n], s.live[n].served.value);
      } else {
        DroppedTracks(s, n);
        hide TimesOk, AnswerRead, Track, ReadOk, Settled, Without, Scoped, Ticked;
        var d := ReadOk(s.client, n, Scoped(s.me, TableAt(s, s.live[n].served.value)));
        TrackTimes(t, d);
        SameClock(s, t, AnswerRead(s, n));
      }
    }
  }

  lemma StampedTimes(s: State, t: State)
    requires TimesOk(s) && t.live == s.live && V(t) == V(s) && SameShown(s.log, t.log)
    requires t.task.Some? && t.task.value.stamp == NewStamp(s)
    ensures TimesOk(t)
  {
    NewStampSince(s);
    hide V, NewStamp;
  }

  lemma BeginTimes(s: State, task: Task)
    requires TimesOk(s) && task.stamp == NewStamp(s)
    ensures TimesOk(Ticked(s, Begin(s, task)))
  {
    hide TimesOk, NewStamp;
    if s.client.working || s.task.Some? {
      SameTimesOk(s, Ticked(s, s));
    } else {
      StampedTimes(s, Ticked(s, Begin(s, task)));
    }
  }

  lemma RefuseTimes(s: State)
    requires TimesOk(s)
    ensures TimesOk(Ticked(s, RefuseTask(s)))
  {
    hide TimesOk, NewStamp, AlreadyDecided, Top;
    if RefuseTask(s) == s {
      SameTimesOk(s, Ticked(s, s));
    } else {
      StampedTimes(s, Ticked(s, RefuseTask(s)));
    }
  }

  lemma ServeReadTimes(s: State, n: nat)
    requires TimesOk(s)
    ensures TimesOk(Ticked(s, ServeRead(s, n)))
  {
  }

  lemma ServeTimes(s: State, a: Action)
    requires TimesOk(s) && (a.ServeLoad? || a.ServeWrite?)
    ensures TimesOk(Ticked(s, ServeTask(s, a)))
  {
    hide Asked, Applied, RowOf, Top;
  }

  lemma FailTaskTimes(s: State)
    requires TimesOk(s)
    ensures TimesOk(Ticked(s, FailTask(s)))
  {
    hide Since, LiveSince;
  }

  lemma FailReadTimes(s: State, n: nat)
    requires TimesOk(s)
    ensures TimesOk(Ticked(s, FailRead(s, n)))
  {
    SettledTimes(s, n);
    hide TimesOk, Without, Settled, Applies;
    if n in s.live {
      SameTimesOk(s.(live := Without(s.live, n), client := Settled(s.client, n)), Ticked(s, FailRead(s, n)));
    } else {
      SameTimesOk(s, Ticked(s, FailRead(s, n)));
    }
  }

  lemma QuietTimes(s: State, a: Action)
    requires TimesOk(s) && (a.WriteBySomeone? || Aside(a))
    ensures TimesOk(Ticked(s, Act(s, a)))
  {
    hide TimesOk, Act;
    QuietStays(s, a);
    SameTimesOk(s, Ticked(s, Act(s, a)));
  }

  lemma TimesFacts(s: State, n: nat)
    requires Inv(s)
    ensures LogOk(s.log) && forall n :: n in s.live ==> s.live[n].time < s.log.clock
    ensures n in s.live && s.live[n].served.Some? ==> s.live[n].version <= s.live[n].served.value
    ensures s.task.Some? ==> s.task.value.stamp.time < s.log.clock
    ensures s.task.Some? && s.task.value.stamp.served.Some? ==>
        s.task.value.stamp.version <= s.task.value.stamp.served.value
  {
    hide VersionsOk, ShownOk, ReadOrdered, ClientOk;
  }

  lemma TaskStepTimes(s: State, a: Action)
    requires Inv(s) && TimesOk(s)
    requires a.StartLoad? || a.StartWrite? || a.Refused? || a.ServeLoad? || a.ServeWrite? || a.TaskFails? || a.TaskDone?
    ensures TimesOk(Ticked(s, Act(s, a)))
  {
    hide Inv, TimesOk, LogOk, FinishTask, Begin, RefuseTask, ServeTask, FailTask, NewStamp, Ticked;
    TimesFacts(s, 0);
    match a
    case StartLoad => BeginTimes(s, Loading(NewStamp(s)));
    case StartWrite(request) => BeginTimes(s, Writing(NewStamp(s), request, 0));
    case Refused => RefuseTimes(s);
    case ServeLoad => ServeTimes(s, a);
    case ServeWrite(_) => ServeTimes(s, a);
    case TaskFails => FailTaskTimes(s);
    case TaskDone => FinishTimes(s);
  }

  lemma ActKeepsTimes(s: State, a: Action)
    requires Inv(s) && TimesOk(s)
    ensures TimesOk(Ticked(s, Act(s, a)))
  {
    hide Inv, TimesOk, LogOk, ReceiveFrame, AnswerRead, FinishTask, Track, Begin, RefuseTask, ServeTask, FailTask,
      FailRead, ServeRead, Ticked, WorkEnded;
    TimesFacts(s, if a.Answer? then a.read else 0);
    if a.WriteBySomeone? || Aside(a) {
      QuietTimes(s, a);
    } else if a.Serve? {
      ServeReadTimes(s, a.read);
    } else if a.Fail? {
      FailReadTimes(s, a.read);
    } else if a.Receive? {
      ReceiveTimes(s, a.socket);
    } else if a.Answer? {
      AnswerTimes(s, a.read);
    } else if a.Effect? {
      TrackTimes(s, WorkEnded(s.client));
    } else {
      TaskStepTimes(s, a);
    }
  }

  lemma NextKeepsTimes(s: State, a: Action)
    requires Inv(s) && TimesOk(s)
    ensures TimesOk(Next(s, a))
  {
    hide Inv, TimesOk, Act;
    ActKeepsTimes(s, a);
  }

  // ----- every run

  ghost predicate Exact(s: State) {
    Sound(s) && RowsKnown(s) && Told(s) && ReportsOk(s) && TimesOk(s)
  }

  lemma NextKeepsExact(s: State, a: Action)
    requires Exact(s)
    ensures Exact(Next(s, a))
  {
    hide Inv, VersionSteps, News, ShownIsSnapshot, Memory, RowsKnown, Told, ReportsOk, TimesOk, Next;
    NextKeepsSound(s, a);
    NextKeepsRows(s, a);
    NextKeepsTold(s, a);
    NextKeepsReports(s, a);
    NextKeepsTimes(s, a);
  }

  lemma {:induction false} RunKeepsExact(s: State, actions: seq<Action>)
    requires Exact(s)
    ensures Exact(Run(s, actions))
    decreases |actions|
  {
    hide Exact, Next;
    if actions == [] {
    } else {
      NextKeepsExact(s, actions[0]);
      RunKeepsExact(Next(s, actions[0]), actions[1..]);
    }
  }

  lemma InitialExact(me: Actor, table: Table)
    requires UniqueIds(table)
    ensures Exact(Initial(me, table))
  {
    InitialSound(me, table);
  }

  lemma ReachedExact(me: Actor, table: Table, actions: seq<Action>)
    requires UniqueIds(table)
    ensures var s := Run(Initial(me, table), actions); Exact(s) && s.me == me
  {
    InitialExact(me, table);
    RunKeepsExact(Initial(me, table), actions);
    SameActor(Initial(me, table), actions);
  }

  // ----- the list at rest

  /** The list was loaded as it was at the last `changed` callback, or later. */
  predicate LoadedSinceNews(log: Log) {
    log.shownAt.Some? && log.shownAt.value >= log.changedAt
  }

  lemma AtRestHasNoNews(s: State)
    requires Exact(s) && AtRest(s)
    ensures Fresh(s.me, s.versions, s.log.changedAt)
  {
    hide Sound, RowsKnown, ReportsOk, TimesOk, Fresh;
  }

  lemma FreshIsShown(s: State)
    requires Exact(s) && s.log.shownAt.Some? && Fresh(s.me, s.versions, s.log.shownAt.value)
    ensures s.client.shown == ListFor(s.me, Top(s))
  {
    hide Inv, VersionSteps, News, ShownIsSnapshot, Memory, RowsKnown, Told, ReportsOk, TimesOk, Fresh, ListFor;
    ServedInRange(s, 0);
    SnapshotIsCurrent(s);
  }

  lemma ExactAtRest(s: State)
    requires Exact(s) && AtRest(s) && (s.log.failure.None? || LoadedSinceNews(s.log))
    ensures s.client.shown == ListFor(s.me, Top(s))
  {
    if LoadedSinceNews(s.log) {
      AtRestHasNoNews(s);
      hide Exact, AtRest, ListFor;
      LaterIsFresh(s.me, s.versions, s.log.changedAt, s.log.shownAt.value);
      FreshIsShown(s);
    } else {
      hide Sound, RowsKnown, Told, ReportsOk, TimesOk, AtRest, ListFor;
      SoundAtRest(s);
    }
  }

  /**
   Convergence: a session that is connected with nothing outstanding shows exactly the list the server
   would send now, if its newest live read did not fail or a list as of the last callback was shown since.
   */
  lemma SessionAtRestShowsTheServersList(me: Actor, table: Table, actions: seq<Action>)
    requires UniqueIds(table)
    requires var s := Run(Initial(me, table), actions); AtRest(s) && (s.log.failure.None? || LoadedSinceNews(s.log))
    ensures var s := Run(Initial(me, table), actions); s.client.shown == ListFor(me, Top(s))
  {
    hide Run, Exact, AtRest, ListFor;
    ReachedExact(me, table, actions);
    ExactAtRest(Run(Initial(me, table), actions));
  }

  /** A list whose request was made after the last callback is such a list, whichever requests failed before. */
  lemma LoadedAfterCallback(me: Actor, table: Table, actions: seq<Action>)
    requires UniqueIds(table)
    ensures var log := Run(Initial(me, table), actions).log;
            log.shownAt.Some? ==>
              log.applied != [] && (log.applied[|log.applied| - 1].started >= log.lastChanged ==> LoadedSinceNews(log))
  {
    hide Run, Sound, RowsKnown, Told, ReportsOk;
    ReachedExact(me, table, actions);
  }

  // ----- the list at any moment

  lemma ExactRows(s: State)
    requires Exact(s)
    ensures |s.versions| > 0 && VersionsOk(s.versions) && MovesOk(s.versions)
    ensures SeenOk(s.me, s.versions, s.client.shown, s.log.seen)
        && SeenIsLoaded(s.me, s.versions, s.log.shownAt, s.log.seen)
  {
    hide ShownOk, VersionSteps, News, ShownIsSnapshot, Memory, Told, ReportsOk, TimesOk, MovesOk, SeenOk, SeenIsLoaded;
    VersionsAreOk(s);
  }

  lemma ExactlyShown(s: State)
    requires Exact(s)
    ensures |s.versions| > 0
    ensures SameReviews(s.client.shown, ListFor(s.me, Top(s))) <==> UpToDate(s.me, s.versions, s.log.seen)
    ensures s.log.shownAt.Some? ==>
        (s.client.shown == ListFor(s.me, Top(s)) <==> Fresh(s.me, s.versions, s.log.shownAt.value))
  {
    ExactRows(s);
    hide Exact, VersionsOk, MovesOk, SeenOk, UpToDate, ListFor, Fresh, Received;
    SameReviewsExactly(s.me, s.versions, s.client.shown, s.log.seen);
    if s.log.shownAt.Some? {
      SnapshotUpToDate(s.me, s.versions, s.log.shownAt.value);
      if Fresh(s.me, s.versions, s.log.shownAt.value) { FreshIsShown(s); }
    }
  }

  /**
   At every moment: the reviews shown are those of the server's list, in the same states, if and only if
   each was received since the write that last moved it; and a loaded list is the server's, order
   included, if and only if no write announced to the actor came after it.
   */
  lemma ShownExactly(me: Actor, table: Table, actions: seq<Action>)
    requires UniqueIds(table)
    ensures var s := Run(Initial(me, table), actions);
            |s.versions| > 0
            && (SameReviews(s.client.shown, ListFor(me, Top(s))) <==> UpToDate(me, s.versions, s.log.seen))
            && (s.log.shownAt.Some? ==>
                (s.client.shown == ListFor(me, Top(s)) <==> Fresh(me, s.versions, s.log.shownAt.value)))
  {
    hide Run, Exact, SameReviews, UpToDate, ListFor, Fresh;
    ReachedExact(me, table, actions);
    ExactlyShown(Run(Initial(me, table), actions));
  }

  // ----- current, or reported

  predicate Reported(log: Log) {
    log.failure.Some? && log.failure.value.reported
  }

  /**
   At rest the list is current or the failure of the newest live read was reported, with exactly one
   exception: an operation began or ended during that read, and a row has moved since it was received.
   */
  lemma CurrentOrReported(me: Actor, table: Table, actions: seq<Action>)
    requires UniqueIds(table) && AtRest(Run(Initial(me, table), actions))
    ensures var s := Run(Initial(me, table), actions);
            |s.versions| > 0
            && (SameReviews(s.client.shown, ListFor(me, Top(s))) || Reported(s.log)
                <==> !(s.log.failure.Some? && s.log.failure.value.overlapped && !UpToDate(me, s.versions, s.log.seen)))
  {
    hide Run, Exact, AtRest, UpToDate, ListFor, Fresh;
    var s := Run(Initial(me, table), actions);
    ReachedExact(me, table, actions);
    ExactlyShown(s);
    ReportsAreExact(s);
    if s.log.failure.None? { ExactAtRest(s); }
  }

  lemma ReportsAreExact(s: State)
    requires Exact(s)
    ensures s.log.failure.Some? ==> (s.log.failure.value.reported <==> !s.log.failure.value.overlapped)
  {
    hide Sound, RowsKnown, Told, TimesOk, Overlaps;
  }

  // ----- a refresh

  lemma RefreshLoads(s: State)
    requires !s.ended && s.authorized && s.task.None? && !s.client.working && !s.client.drainDue && !s.client.dirty
        && s.live == map[]
    ensures var t := Next(Next(Next(s, StartLoad), ServeLoad), TaskDone);
            !t.ended && t.task.None? && t.client.drainDue && !t.client.dirty && t.live == map[]
                && t.versions == s.versions && t.me == s.me
            && t.unpublished == s.unpublished && t.sockets == s.sockets && t.current == s.current
                && t.client.shown == ListFor(s.me, Top(s))
  {
    hide ListFor, Received;
  }

  lemma EffectRests(s: State)
    requires !s.ended && s.client.drainDue && !s.client.dirty
    ensures var t := Next(s, Effect);
        t == s.(client := s.client.(drainDue := false), log := s.log.(clock := s.log.clock + 1))
  {
  }

  /** Whatever failed before, a refresh that nothing interrupts leaves the session at rest with the server's list. */
  lemma RefreshHeals(s: State)
    requires Exact(s) && AtRest(s) && !s.ended && s.authorized
    ensures var t := Next(Next(Next(Next(s, StartLoad), ServeLoad), TaskDone), Effect);
            AtRest(t) && t.versions == s.versions && t.client.shown == ListFor(s.me, Top(t))
  {
    assert !s.client.working && !s.client.dirty && s.live == map[] by {
      hide VersionsOk, ShownOk, LogOk, ReadsStamped, ReadOrdered, VersionSteps, News, ShownIsSnapshot, Memory,
        RowsKnown, Told, ReportsOk, TimesOk;
    }
    hide Exact, Next, ListFor;
    RefreshLoads(s);
    EffectRests(Next(Next(Next(s, StartLoad), ServeLoad), TaskDone));
  }
}

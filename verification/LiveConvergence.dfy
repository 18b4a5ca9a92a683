/**
 No invalidation is lost in a review session, and a session at rest whose newest live read did not fail
 shows the server's list, over every run of module ReviewLive: subscribing before `ready`, publishing
 after persisting, a token that coalesces but is drained before the frame is sent, and a client that reads
 again for every frame.
 */
module LiveConvergence {
  import opened Wrappers
  import opened ReviewClient
  import opened ReviewTable
  import opened ReviewLive
  import opened LiveSafety

  // ----- where the news of a write can be

  ghost predicate VersionSteps(versions: seq<Version>) {
    forall k :: 0 < k < |versions| ==> Touches(versions[k - 1].table, versions[k].table, versions[k].touched)
  }

  /** Nothing after version `a` is announced to `me`. */
  ghost predicate Fresh(me: Actor, versions: seq<Version>, a: nat) {
    forall k :: a < k < |versions| ==> !Concerns(me, versions[k].touched)
  }

  /** A write whose publication will reach `me`. */
  ghost predicate Announced(me: Actor, versions: seq<Version>, unpublished: set<nat>, k: nat) {
    k in unpublished && k < |versions| && Concerns(me, versions[k].touched)
  }

  ghost predicate Unpublished(me: Actor, versions: seq<Version>, unpublished: set<nat>) {
    exists k :: Announced(me, versions, unpublished, k)
  }

  predicate InPipe(k: Socket) {
    k.token || k.sending || k.phase.Subscribed? || ReadyFrame in k.frames || ChangedFrame in k.frames
  }

  predicate IsSubscribed(k: Socket) {
    k.phase.Subscribed? || k.phase.Live?
  }

  predicate HasSubscription(s: State) {
    s.current.Some? && s.current.value in s.sockets && IsSubscribed(s.sockets[s.current.value])
  }

  ghost predicate OnItsWay(s: State) {
    Unpublished(s.me, s.versions, s.unpublished) || (HasSubscription(s) && InPipe(s.sockets[s.current.value]))
        || s.client.dirty
  }

  /** The newest live read will be started again, or was not served before the last news. */
  ghost predicate ReadGood(me: Actor, versions: seq<Version>, c: Client, live: map<nat, Stamp>) {
    var n := c.latest;
    n in live && n in c.inFlight
    && (live[n].served.None? || c.inFlight[n] != c.foreground || Fresh(me, versions, live[n].served.value))
  }

  ghost predicate ShownGood(me: Actor, versions: seq<Version>, shownAt: Option<nat>) {
    shownAt.Some? && Fresh(me, versions, shownAt.value)
  }

  ghost predicate Informed(s: State) {
    HasSubscription(s) ==>
        OnItsWay(s) || ReadGood(s.me, s.versions, s.client, s.live) || ShownGood(s.me, s.versions, s.log.shownAt)
        || s.log.failure.Some?
  }

  /** The client's own write is announced to it too, so patching the list by hand loses nothing. */
  ghost predicate OwnWriteAnnounced(s: State) {
    HasSubscription(s) && s.task.Some? && s.task.value.Writing? && s.task.value.stamp.served.Some? ==> OnItsWay(s)
  }

  ghost predicate ShownIsSnapshot(s: State) {
    s.log.shownAt.Some? ==>
        s.log.shownAt.value <= s.log.floor && s.client.shown == Scoped(s.me, TableAt(s, s.log.shownAt.value))
  }

  /** The four cases of a `changed` callback at `since` (client/src/ReviewWorkspace.tsx:71-100). */
  ghost predicate Remembered(s: State, since: nat) {
    s.client.dirty
    || (s.client.latest in s.live && s.live[s.client.latest].time >= since)
    || s.log.liveStart >= since
    || s.log.failure.Some?
  }

  ghost predicate Memory(s: State) {
    s.log.lastChanged < s.log.clock && s.log.liveStart <= s.log.lastEnd && Remembered(s, s.log.lastChanged)
  }

  ghost predicate News(s: State) {
    Informed(s) && OwnWriteAnnounced(s)
  }

  ghost predicate Sound(s: State) {
    Inv(s) && VersionSteps(s.versions) && News(s) && ShownIsSnapshot(s) && Memory(s)
  }

  // ----- memory

  lemma SocketKeepsMemory(s: State, a: Action)
    requires Memory(s)
    requires !a.Receive? && !a.ServeLoad? && !a.ServeWrite? && !a.Refused? && !a.TaskDone? && !a.TaskFails? && !a.Serve?
        && !a.Answer? && !a.Fail? && !a.Effect?
    ensures Memory(Ticked(s, Act(s, a)))
  {
    SocketReads(s, a);
    hide Act, Remembered;
    SameReadsRemember(s, Act(s, a));
  }

  lemma SocketReads(s: State, a: Action)
    requires !a.Receive? && !a.ServeLoad? && !a.ServeWrite? && !a.Refused? && !a.TaskDone? && !a.TaskFails? && !a.Serve?
        && !a.Answer? && !a.Fail? && !a.Effect?
    ensures SameReads(s, Act(s, a)) && Act(s, a).log.lastEnd == s.log.lastEnd
  {
    hide WriteOk, Applied, Top, Sender, SignalAll, Concerns, Without, TableAt, RowOf, NewStamp;
  }

  lemma SameReadsRemember(s: State, t: State)
    requires SameReads(s, t) && Remembered(s, s.log.lastChanged)
    ensures Remembered(Ticked(s, t), Ticked(s, t).log.lastChanged)
  {
  }

  /** The foreground operation never touches the live reads or forgets an invalidation. */
  ghost predicate SameReads(s: State, t: State) {
    t.client.dirty == s.client.dirty && t.client.latest == s.client.latest && t.live == s.live
        && t.log.failure == s.log.failure
    && t.log.liveStart == s.log.liveStart && t.log.lastChanged == s.log.lastChanged
    && (t.log.lastEnd == s.log.lastEnd || t.log.lastEnd == s.log.clock)
  }

  lemma ServeTaskReads(s: State, a: Action)
    ensures SameReads(s, ServeTask(s, a))
  {
    hide Asked, Applied, RowOf, Top;
  }

  lemma FinishLoadReads(s: State, stamp: Stamp, k: nat)
    ensures SameReads(s, FinishLoad(s, stamp, k))
  {
    hide Scoped, TableAt, Received, V;
  }

  lemma FinishWriteReads(s: State, request: Request, at: nat, k: nat)
    ensures SameReads(s, FinishWrite(s, request, at, k))
  {
    hide Patched, TableAt, Answered, V;
  }

  lemma FinishTaskReads(s: State)
    ensures SameReads(s, FinishTask(s))
  {
    if s.task.Some? && s.task.value.stamp.served.Some? {
      FinishLoadReads(s, s.task.value.stamp, s.task.value.stamp.served.value);
      if s.task.value.Writing? {
        FinishWriteReads(s, s.task.value.request, s.task.value.at, s.task.value.stamp.served.value);
      }
    }
    hide FinishLoad, FinishWrite;
  }

  lemma RefuseTaskReads(s: State)
    ensures SameReads(s, RefuseTask(s)) && SameReads(s, FailTask(s))
  {
    hide AlreadyDecided, Top;
  }

  lemma TaskKeepsMemory(s: State, a: Action)
    requires Memory(s) && s.log.lastEnd < s.log.clock
    requires a.ServeLoad? || a.ServeWrite? || a.Refused? || a.TaskDone? || a.TaskFails?
    ensures Memory(Ticked(s, Act(s, a)))
  {
    ServeTaskReads(s, a);
    FinishTaskReads(s);
    RefuseTaskReads(s);
    hide ServeTask, FinishTask, RefuseTask, FailTask;
  }

  lemma ReceiveKeepsMemory(s: State, n: nat)
    requires Memory(s)
    ensures Memory(Ticked(s, ReceiveFrame(s, n)))
  {
    if n in s.sockets && s.sockets[n].frames != [] {
      NoticeKeepsMemory(s, s.(sockets := s.sockets[n := s.sockets[n].(frames := s.sockets[n].frames[1..])]));
      hide OnChanged, Without;
    }
  }

  lemma NoticeKeepsMemory(s: State, t: State)
    requires Memory(s) && t == s.(sockets := t.sockets)
    ensures Memory(Ticked(s, OnChanged(t)))
  {
  }

  lemma EffectKeepsMemory(s: State)
    requires Memory(s)
    ensures Memory(Ticked(s, Track(s, WorkEnded(s.client))))
  {
  }

  lemma ReadKeepsMemory(s: State, a: Action)
    requires Memory(s)
    requires a.Serve? || a.Fail?
    ensures Memory(Ticked(s, Act(s, a)))
  {
  }

  lemma AnswerKeepsMemory(s: State, n: nat)
    requires Memory(s) && s.log.lastEnd < s.log.clock
    requires n in s.live && Applies(s.client, n) ==> s.log.lastEnd < s.live[n].time < s.log.clock
    ensures Memory(Ticked(s, AnswerRead(s, n)))
  {
    hide Scoped;
    if n in s.live && n in s.client.inFlight && s.live[n].served.Some? && !Applies(s.client, n) {
      DroppedTracks(s, n);
      hide AnswerRead, ReadOk, Settled;
      DroppedMemory(s, n);
    }
  }

  lemma DroppedMemory(s: State, n: nat)
    requires n in s.live && n in s.client.inFlight && s.live[n].served.Some? && !Applies(s.client, n) && Memory(s)
    ensures var d := ReadOk(s.client, n, Scoped(s.me, TableAt(s, s.live[n].served.value)));
            Memory(Ticked(s, Track(s.(live := Without(s.live, n), client := Settled(s.client, n)), d)))
  {
    hide Scoped;
  }

  lemma ReadTimes(s: State, n: nat)
    requires Inv(s)
    ensures s.log.lastEnd < s.log.clock
    ensures n in s.live && Applies(s.client, n) ==> s.log.lastEnd < s.live[n].time < s.log.clock
  {
    hide VersionsOk, ShownOk, TaskOk, ClientOk;
  }

  lemma ActKeepsMemory(s: State, a: Action)
    requires Memory(s) && Inv(s)
    ensures Memory(Ticked(s, Act(s, a)))
  {
    hide Memory, Inv, Ticked, AnswerRead, ReceiveFrame, Track;
    ReadTimes(s, if a.Answer? then a.read else 0);
    if a.Receive? {
      ReceiveKeepsMemory(s, a.socket);
    } else if a.Effect? {
      EffectKeepsMemory(s);
    } else if a.Answer? {
      AnswerKeepsMemory(s, a.read);
    } else {
      hide Act;
      if a.Serve? || a.Fail? {
        ReadKeepsMemory(s, a);
      } else if a.ServeLoad? || a.ServeWrite? || a.Refused? || a.TaskDone? || a.TaskFails? {
        TaskKeepsMemory(s, a);
      } else {
        SocketKeepsMemory(s, a);
      }
    }
  }

  lemma NextKeepsMemory(s: State, a: Action)
    requires Memory(s) && Inv(s)
    ensures Memory(Next(s, a))
  {
    hide Memory, Inv, Act;
    ActKeepsMemory(s, a);
  }

  // ----- news

  /** Steps that change neither the client nor what is on its way. */
  lemma QuietKeepsNews(s: State, t: State)
    requires News(s) && t.me == s.me && t.versions == s.versions && t.unpublished == s.unpublished
        && t.client == s.client && t.live == s.live
    requires t.task == s.task && t.current == s.current && t.log
        == s.log.(clock := t.log.clock, lastChanged := t.log.lastChanged, changedAt := t.log.changedAt,
        lastWork := t.log.lastWork)
    requires HasSubscription(t) ==>
        HasSubscription(s) && (InPipe(s.sockets[s.current.value]) ==> InPipe(t.sockets[t.current.value]))
    ensures News(t)
  {
    hide Unpublished, Fresh, ReadGood, ShownGood, InPipe, IsSubscribed;
  }

  lemma PersistNews(me: Actor, versions: seq<Version>, unpublished: set<nat>, v: Version)
    ensures Unpublished(me, versions, unpublished) || Concerns(me, v.touched) ==>
        Unpublished(me, versions + [v], unpublished + {|versions|})
    ensures !Concerns(me, v.touched) ==> forall a :: Fresh(me, versions, a) ==> Fresh(me, versions + [v], a)
  {
    var later := versions + [v];
    if Concerns(me, v.touched) {
      assert Announced(me, later, unpublished + {|versions|}, |versions|);
    } else if Unpublished(me, versions, unpublished) {
      var k :| Announced(me, versions, unpublished, k);
      assert Announced(me, later, unpublished + {|versions|}, k);
    }
  }

  lemma PersistKeepsNews(s: State, w: Write, task: Option<Task>)
    requires News(s)
    requires task == s.task || (task.Some? && Concerns(s.me, w.review.researcherId))
    ensures News(Ticked(s, Persist(s, w).(task := task)))
  {
    PersistNews(s.me, s.versions, s.unpublished, Version(Applied(Top(s), w), w.review.researcherId, RowOf(Top(s), w)));
    hide Unpublished, Fresh, InPipe, IsSubscribed, Applied, Top, Concerns;
  }

  lemma PublishedNews(me: Actor, versions: seq<Version>, unpublished: set<nat>, k: nat)
    requires (k < |versions| ==> !Concerns(me, versions[k].touched)) && Unpublished(me, versions, unpublished)
    ensures Unpublished(me, versions, unpublished - {k})
  {
    var j :| Announced(me, versions, unpublished, j);
    assert Announced(me, versions, unpublished - {k}, j);
  }

  /** A publication that reaches the subscriber sets the token. */
  lemma SignalledKeepsNews(s: State, t: State)
    requires t == s.(unpublished := t.unpublished, sockets := SignalAll(s.sockets), authorized := t.authorized)
    ensures News(Ticked(s, t))
  {
    hide Unpublished, Fresh, ReadGood, ShownGood;
  }

  lemma PublishKeepsNews(s: State, k: nat)
    requires News(s)
    ensures News(Ticked(s, PublishVersion(s, k)))
  {
    hide Unpublished, Fresh, ReadGood, ShownGood, InPipe, IsSubscribed;
    var t := PublishVersion(s, k);
    if k in s.unpublished {
      if k < |s.versions| && Concerns(s.me, s.versions[k].touched) {
        SignalledKeepsNews(s, t);
      } else if Unpublished(s.me, s.versions, s.unpublished) {
        PublishedNews(s.me, s.versions, s.unpublished, k);
      }
    }
  }

  lemma SenderKeepsPipe(k: Socket, a: Action, authorized: bool)
    ensures var t := Sender(k, a, authorized); IsSubscribed(t) ==> InPipe(t) || (IsSubscribed(k) && !InPipe(k))
  {
  }

  lemma ServerStepKeepsNews(s: State, n: nat, a: Action)
    requires News(s)
    ensures News(Ticked(s, ServerStep(s, n, a)))
  {
    if n in s.sockets && s.current == Some(n) {
      var k, t := s.sockets[n], Ticked(s, ServerStep(s, n, a));
      SenderKeepsPipe(k, a, s.authorized);
      hide Sender, ReadGood, ShownGood, Unpublished;
      if HasSubscription(t) && InPipe(t.sockets[n]) {
        assert OnItsWay(t);
      } else {
        QuietKeepsNews(s, t);
      }
    } else {
      QuietKeepsNews(s, Ticked(s, ServerStep(s, n, a)));
    }
  }

  /** Neither the server, nor the sockets, nor the last callback. */
  ghost predicate SameServer(s: State, t: State) {
    t.me == s.me && t.versions == s.versions && t.unpublished == s.unpublished && t.sockets == s.sockets
        && t.current == s.current
    && t.log.changedAt == s.log.changedAt
  }

  lemma OperationSameServer(s: State, a: Action)
    requires a.StartLoad? || a.StartWrite? || a.ServeLoad? || a.Refused? || a.TaskFails? || a.TaskDone?
    ensures SameServer(s, Act(s, a))
  {
    FinishSameServer(s);
    hide FinishTask, TableAt, AlreadyDecided, Top, V;
  }

  lemma FinishSameServer(s: State)
    ensures SameServer(s, FinishTask(s))
  {
    if s.task.Some? && s.task.value.stamp.served.Some? {
      var k := s.task.value.stamp.served.value;
      if s.task.value.Loading? {
        LoadSameServer(s, s.task.value.stamp, k);
      } else {
        WriteSameServer(s, s.task.value.request, s.task.value.at, k);
      }
    }
    hide FinishLoad, FinishWrite;
  }

  lemma LoadSameServer(s: State, stamp: Stamp, k: nat)
    ensures SameServer(s, FinishLoad(s, stamp, k))
  {
    hide Scoped, TableAt, Received, V;
  }

  lemma WriteSameServer(s: State, request: Request, at: nat, k: nat)
    ensures SameServer(s, FinishWrite(s, request, at, k))
  {
    hide TableAt, Patched, Answered, V;
  }

  lemma AnswerSameServer(s: State, n: nat)
    ensures SameServer(s, AnswerRead(s, n))
  {
    hide Scoped, TableAt, Received, V, ReadOk, Without, Applies, NewStamp;
  }

  lemma TrackSameServer(s: State, c: Client)
    ensures SameServer(s, Track(s, c))
  {
    hide NewStamp;
  }

  lemma OtherReadSameServer(s: State, a: Action)
    requires a.Serve? || a.Fail? || a.Expire? || a.Leave?
    ensures SameServer(s, Act(s, a))
  {
    hide V, Settled, Without, Applies;
  }

  lemma ReadSameServer(s: State, a: Action)
    requires a.Serve? || a.Answer? || a.Fail? || a.Effect? || a.Expire? || a.Leave?
    ensures SameServer(s, Act(s, a))
  {
    hide AnswerRead, Track, SameServer, WorkEnded;
    if a.Answer? {
      AnswerSameServer(s, a.read);
    } else if a.Effect? {
      TrackSameServer(s, WorkEnded(s.client));
    } else {
      OtherReadSameServer(s, a);
    }
  }

  /** Everything a foreground operation can do to the list shown. */
  ghost predicate Ends(c: Client, d: Client) {
    d.foreground > c.foreground && d.dirty == c.dirty && d.latest == c.latest && d.inFlight == c.inFlight
  }

  /** What was started before an operation began or ended is read again. */
  lemma EndKeepsGood(me: Actor, versions: seq<Version>, c: Client, d: Client, live: map<nat, Stamp>)
    requires ReadsOk(c) && Ends(c, d) && ReadGood(me, versions, c, live)
    ensures ReadGood(me, versions, d, live)
  {
  }

  lemma BeginKeepsNews(s: State, task: Task)
    requires News(s) && ReadsOk(s.client) && task.stamp.served.None?
    ensures News(Ticked(s, Begin(s, task)))
  {
    if ReadGood(s.me, s.versions, s.client, s.live) {
      EndKeepsGood(s.me, s.versions, s.client, BeginWork(s.client), s.live);
    }
    hide Unpublished, Fresh, ReadGood, ShownGood, InPipe, IsSubscribed;
  }

  lemma FailTaskKeepsNews(s: State)
    requires News(s) && ReadsOk(s.client)
    ensures News(Ticked(s, FailTask(s)))
  {
    if ReadGood(s.me, s.versions, s.client, s.live) {
      EndKeepsGood(s.me, s.versions, s.client, EndWork(s.client), s.live);
    }
    hide Unpublished, Fresh, ReadGood, ShownGood, InPipe, IsSubscribed;
  }

  lemma LaterIsFresh(me: Actor, versions: seq<Version>, a: nat, b: nat)
    requires Fresh(me, versions, a) && a <= b
    ensures Fresh(me, versions, b)
  {
  }

  lemma FinishLoadEnds(s: State, stamp: Stamp, k: nat)
    ensures Ends(s.client, FinishLoad(s, stamp, k).client)
    ensures FinishLoad(s, stamp, k).task == None && FinishLoad(s, stamp, k).log.shownAt == Some(k)
  {
    hide Scoped, TableAt, Received, V;
  }

  lemma FinishWriteEnds(s: State, request: Request, at: nat, k: nat)
    ensures var t := FinishWrite(s, request, at, k); t == s || (Ends(s.client, t.client) && t.task == None)
  {
    hide Patched, TableAt, Answered, V;
  }

  /** A load shows what is at least as new; after a write the news is on its way. */
  lemma EndedNews(s: State, t: State)
    requires News(s) && ReadsOk(s.client) && SameServer(s, t) && SameReads(s, t) && Ends(s.client, t.client)
    requires t.task.None?
    requires ShownGood(s.me, s.versions, s.log.shownAt) ==> OnItsWay(s) || ShownGood(t.me, t.versions, t.log.shownAt)
    ensures News(t)
  {
    if ReadGood(s.me, s.versions, s.client, s.live) {
      EndKeepsGood(s.me, s.versions, s.client, t.client, s.live);
    }
    hide Unpublished, ReadGood, ShownGood, InPipe, IsSubscribed;
  }

  lemma TickKeepsNews(s: State, t: State)
    requires News(t)
    ensures News(Ticked(s, t))
  {
    hide Unpublished, ReadGood, ShownGood, InPipe, IsSubscribed;
  }

  lemma FinishLoadKeepsNews(s: State, stamp: Stamp, k: nat)
    requires News(s) && ReadsOk(s.client) && (s.log.shownAt.Some? ==> s.log.shownAt.value <= k)
    ensures News(FinishLoad(s, stamp, k))
  {
    FinishLoadEnds(s, stamp, k);
    FinishLoadReads(s, stamp, k);
    LoadSameServer(s, stamp, k);
    hide FinishLoad, News, SameReads, Ends, Fresh, OnItsWay;
    if ShownGood(s.me, s.versions, s.log.shownAt) { LaterIsFresh(s.me, s.versions, s.log.shownAt.value, k); }
    EndedNews(s, FinishLoad(s, stamp, k));
  }

  lemma FinishWriteKeepsNews(s: State, request: Request, at: nat, k: nat)
    requires News(s) && ReadsOk(s.client)
    requires HasSubscription(s) ==> OnItsWay(s)
    ensures News(FinishWrite(s, request, at, k))
  {
    FinishWriteEnds(s, request, at, k);
    FinishWriteReads(s, request, at, k);
    WriteSameServer(s, request, at, k);
    hide FinishWrite, Ends, Unpublished, ReadGood, ShownGood, InPipe, IsSubscribed;
  }

  lemma FinishTaskKeepsNews(s: State)
    requires News(s) && ReadsOk(s.client) && ShownIsSnapshot(s)
    requires s.task.Some? && s.task.value.stamp.served.Some? ==> s.log.floor <= s.task.value.stamp.served.value
    ensures News(Ticked(s, FinishTask(s)))
  {
    hide FinishLoad, FinishWrite, Ticked, Informed, OnItsWay, HasSubscription, ReadsOk;
    if s.task.Some? && s.task.value.stamp.served.Some? {
      var k := s.task.value.stamp.served.value;
      if s.task.value.Loading? {
        FinishLoadKeepsNews(s, s.task.value.stamp, k);
      } else {
        FinishWriteKeepsNews(s, s.task.value.request, s.task.value.at, k);
      }
    }
    hide News;
    TickKeepsNews(s, FinishTask(s));
  }

  lemma ServeLoadKeepsNews(s: State)
    requires News(s)
    ensures News(Ticked(s, ServeTask(s, ServeLoad)))
  {
    hide Unpublished, Fresh, ReadGood, ShownGood, InPipe, IsSubscribed;
  }

  lemma ServeWriteKeepsNews(s: State, w: Write)
    requires News(s)
    ensures News(Ticked(s, ServeTask(s, ServeWrite(w))))
  {
    if s.task.Some? && Asked(s, s.task.value, w) {
      PersistKeepsNews(s, w, ServeTask(s, ServeWrite(w)).task);
      assert Ticked(s, ServeTask(s, ServeWrite(w))) == Ticked(s,
        Persist(s, w).(task := ServeTask(s, ServeWrite(w)).task)) by { hide News; }
    } else {
      QuietKeepsNews(s, Ticked(s, s));
    }
  }

  lemma RefuseKeepsNews(s: State)
    requires News(s)
    ensures News(Ticked(s, RefuseTask(s)))
  {
    hide Unpublished, Fresh, ReadGood, ShownGood, InPipe, IsSubscribed, AlreadyDecided, Top;
  }

  lemma ServeReadKeepsNews(s: State, n: nat)
    requires News(s)
    ensures News(Ticked(s, ServeRead(s, n)))
  {
    var t := ServeRead(s, n);
    if t != s && n == s.client.latest { assert Fresh(s.me, s.versions, V(s)); }
    assert ReadGood(s.me, s.versions, s.client, s.live) ==> ReadGood(s.me, s.versions, s.client, t.live);
    hide Unpublished, Fresh, ReadGood, ShownGood, InPipe, IsSubscribed;
  }

  lemma FailReadKeepsNews(s: State, n: nat)
    requires News(s)
    ensures News(Ticked(s, FailRead(s, n)))
  {
    var t := FailRead(s, n);
    assert n != s.client.latest && ReadGood(s.me, s.versions, s.client, s.live) ==>
      ReadGood(s.me, s.versions, t.client, t.live);
    hide Unpublished, Fresh, ReadGood, ShownGood, InPipe, IsSubscribed;
  }

  /** A callback either leaves the client dirty or starts a read that has not been served. */
  lemma TrackKeepsNews(s: State, t: State, d: Client)
    requires News(s) && t.me == s.me && t.versions == s.versions && t.unpublished == s.unpublished && t.task == s.task
        && t.current == s.current
    requires t.log.shownAt == s.log.shownAt && t.client.latest == s.client.latest
    requires d.dirty || (d.latest != s.client.latest && d.latest in d.inFlight)
    requires s.task.Some? ==> s.client.working && d.dirty
    ensures News(Ticked(s, Track(t, d)))
  {
    if !d.dirty {
      assert Track(t, d).live == t.live[d.latest := NewStamp(t)];
      assert Track(t, d).live[d.latest].served.None?;
      assert ReadGood(s.me, s.versions, d, Track(t, d).live);
    }
    hide Unpublished, Fresh, ReadGood, ShownGood, InPipe, IsSubscribed;
  }

  lemma PopKeepsPipe(k: Socket)
    requires k.frames != [] && !k.frames[0].ReadyFrame? && !k.frames[0].ChangedFrame?
    ensures InPipe(k.(frames := k.frames[1..])) == InPipe(k)
  {
    assert k.frames == [k.frames[0]] + k.frames[1..];
  }

  lemma NoticeKeepsNews(s: State, n: nat)
    requires News(s) && (s.task.Some? ==> s.client.working)
    requires n in s.sockets && s.sockets[n].frames != [] && s.current == Some(n)
        && (s.sockets[n].frames[0].ReadyFrame? || s.sockets[n].frames[0].ChangedFrame?)
    ensures News(Ticked(s, ReceiveFrame(s, n)))
  {
    var t := s.(sockets := s.sockets[n := s.sockets[n].(frames := s.sockets[n].frames[1..])],
      log := s.log.(lastChanged := s.log.clock, changedAt := V(s)));
    TrackKeepsNews(s, t, Changed(s.client));
    assert ReceiveFrame(s, n) == Track(t, Changed(s.client)) by { hide News; }
    SameClock(s, t, Track(t, Changed(s.client)));
  }

  lemma ReceiveKeepsNews(s: State, n: nat)
    requires News(s) && (s.task.Some? ==> s.client.working)
    ensures News(Ticked(s, ReceiveFrame(s, n)))
  {
    hide News, InPipe, IsSubscribed;
    if n !in s.sockets || s.sockets[n].frames == [] {
      QuietKeepsNews(s, Ticked(s, s));
    } else if s.current == Some(n) && (s.sockets[n].frames[0].ReadyFrame? || s.sockets[n].frames[0].ChangedFrame?) {
      NoticeKeepsNews(s, n);
    } else {
      IgnoredKeepsNews(s, n);
    }
  }

  lemma IgnoredKeepsNews(s: State, n: nat)
    requires News(s) && n in s.sockets && s.sockets[n].frames != []
    requires s.current == Some(n) ==> !s.sockets[n].frames[0].ReadyFrame? && !s.sockets[n].frames[0].ChangedFrame?
    ensures News(Ticked(s, ReceiveFrame(s, n)))
  {
    if s.current == Some(n) { PopKeepsPipe(s.sockets[n]); }
    hide News, InPipe;
    QuietKeepsNews(s, Ticked(s, ReceiveFrame(s, n)));
  }

  lemma EffectKeepsNews(s: State)
    requires News(s) && ClientOk(s.client) && (s.task.Some? ==> s.client.working)
    ensures News(Ticked(s, Track(s, WorkEnded(s.client))))
  {
    var d := WorkEnded(s.client);
    if d.latest != s.client.latest {
      TrackKeepsNews(s, s, d);
    } else {
      assert d == s.client.(drainDue := d.drainDue);
      hide Unpublished, Fresh, ShownGood, InPipe, IsSubscribed;
    }
  }

  lemma ShownKeepsNews(s: State, n: nat)
    requires News(s) && ShownIsSnapshot(s) && n in s.live && s.live[n].served.Some? && Applies(s.client, n)
        && s.log.floor <= s.live[n].served.value
    ensures News(Ticked(s, AnswerRead(s, n)))
  {
    if ShownGood(s.me, s.versions, s.log.shownAt) {
      LaterIsFresh(s.me, s.versions, s.log.shownAt.value, s.live[n].served.value);
    }
    ShownState(s, n);
    hide Unpublished, Fresh, InPipe, IsSubscribed, AnswerRead, ShownIsSnapshot;
  }

  lemma ShownState(s: State, n: nat)
    requires n in s.live && s.live[n].served.Some? && Applies(s.client, n)
    ensures var u := AnswerRead(s, n);
            u.me == s.me && u.versions == s.versions && u.unpublished == s.unpublished && u.sockets == s.sockets
                && u.current == s.current && u.task == s.task
            && u.client.dirty == s.client.dirty && u.log.shownAt == s.live[n].served && u.log.failure == s.log.failure
  {
    hide Scoped, TableAt, Without;
  }

  lemma AnswerKeepsNews(s: State, n: nat)
    requires News(s) && ClientOk(s.client) && (s.task.Some? ==> s.client.working) && ShownIsSnapshot(s)
    requires n in s.live && n in s.client.inFlight && s.live[n].served.Some? && Applies(s.client, n) ==>
        s.log.floor <= s.live[n].served.value
    ensures News(Ticked(s, AnswerRead(s, n)))
  {
    if n !in s.live || n !in s.client.inFlight || s.live[n].served.None? {
      hide News;
      QuietKeepsNews(s, Ticked(s, s));
    } else if Applies(s.client, n) {
      ShownKeepsNews(s, n);
    } else {
      DroppedTracks(s, n);
      var t, d := s.(live := Without(s.live, n), client := Settled(s.client, n)),
        ReadOk(s.client, n, Scoped(s.me, TableAt(s, s.live[n].served.value)));
      hide Scoped, TableAt;
      if n == s.client.latest {
        TrackKeepsNews(s, t, d);
      } else {
        assert ReadGood(s.me, s.versions, s.client, s.live) ==> ReadGood(s.me, s.versions, d, t.live);
        hide Unpublished, Fresh, ShownGood, ReadGood, InPipe, IsSubscribed;
      }
    }
  }

  // ----- every step

  lemma ConnectKeepsNews(s: State)
    requires News(s)
    ensures News(Ticked(s, OpenSocket(s)))
  {
    assert !HasSubscription(OpenSocket(s));
  }

  lemma SocketKeepsNews(s: State, a: Action)
    requires News(s)
    requires a.Subscribe? || a.TurnAway? || a.SendReady? || a.Wake? || a.SendChanged? || a.Beat? || a.Drop?
    ensures News(Ticked(s, Act(s, a)))
  {
    hide News, ServerStep;
    ServerStepKeepsNews(s, a.socket, a);
  }

  lemma OtherKeepsNews(s: State, a: Action)
    requires News(s)
    requires a.Expire? || a.Lose? || a.Leave?
    ensures News(Ticked(s, Act(s, a)))
  {
    hide News, InPipe, IsSubscribed;
    QuietKeepsNews(s, Ticked(s, Act(s, a)));
  }

  lemma Facts(s: State, n: nat)
    requires Inv(s)
    ensures ClientOk(s.client) && ReadsOk(s.client) && (s.task.Some? ==> s.client.working)
    ensures s.task.Some? && s.task.value.stamp.served.Some? ==> s.log.floor <= s.task.value.stamp.served.value
    ensures n in s.live && n in s.client.inFlight && s.live[n].served.Some? && Applies(s.client, n) ==>
        s.log.floor <= s.live[n].served.value
  {
    hide VersionsOk, ShownOk, LogOk;
  }

  lemma OperationKeepsNews(s: State, a: Action)
    requires News(s) && Inv(s) && ShownIsSnapshot(s)
    requires a.StartLoad? || a.StartWrite? || a.ServeLoad? || a.ServeWrite? || a.Refused? || a.TaskDone? || a.TaskFails?
    ensures News(Ticked(s, Act(s, a)))
  {
    hide News, Inv, ShownIsSnapshot, ServerStep, PublishVersion, Persist, OpenSocket, ReceiveFrame, Begin, ServeTask,
      RefuseTask, FinishTask, FailTask,
      ServeRead, AnswerRead, FailRead, Track,
      ClientOk, ReadsOk, Ticked, WorkEnded, Applies, SignalAll, Without;
    Facts(s, 0);
    match a
    case StartLoad => BeginKeepsNews(s, Loading(NewStamp(s)));
    case StartWrite(request) => BeginKeepsNews(s, Writing(NewStamp(s), request, 0));
    case ServeLoad => ServeLoadKeepsNews(s);
    case ServeWrite(w) => ServeWriteKeepsNews(s, w);
    case Refused => RefuseKeepsNews(s);
    case TaskDone => FinishTaskKeepsNews(s);
    case TaskFails => FailTaskKeepsNews(s);
  }

  lemma ReadKeepsNews(s: State, a: Action)
    requires News(s) && Inv(s) && ShownIsSnapshot(s)
    requires a.Receive? || a.Serve? || a.Answer? || a.Fail? || a.Effect?
    ensures News(Ticked(s, Act(s, a)))
  {
    hide News, Inv, ShownIsSnapshot, ServerStep, PublishVersion, Persist, OpenSocket, ReceiveFrame, Begin, ServeTask,
      RefuseTask, FinishTask, FailTask,
      ServeRead, AnswerRead, FailRead, Track,
      ClientOk, ReadsOk, Ticked, WorkEnded, Applies, SignalAll, Without;
    Facts(s, if a.Answer? then a.read else 0);
    match a
    case Receive(n) => ReceiveKeepsNews(s, n);
    case Serve(n) => ServeReadKeepsNews(s, n);
    case Answer(n) => AnswerKeepsNews(s, n);
    case Fail(n) => FailReadKeepsNews(s, n);
    case Effect => EffectKeepsNews(s);
  }

  lemma NextKeepsNews(s: State, a: Action)
    requires News(s) && Inv(s) && ShownIsSnapshot(s)
    ensures News(Next(s, a))
  {
    hide News, Inv, ShownIsSnapshot, ServerStep, PublishVersion, Persist, OpenSocket, ReceiveFrame, Begin, ServeTask,
      RefuseTask, FinishTask, FailTask,
      ServeRead, AnswerRead, FailRead, Track;
    if !s.ended {
      match a
      case WriteBySomeone(w) => if WriteOk(Top(s), w) { SomeoneKeepsNews(s, w); }
          else { QuietKeepsNews(s, Ticked(s, s)); }
      case Publish(k) => PublishKeepsNews(s, k);
      case Revoke => SignalledKeepsNews(s, Act(s, a));
      case Connect => ConnectKeepsNews(s);
      case Subscribe(_) => SocketKeepsNews(s, a);
      case TurnAway(_) => SocketKeepsNews(s, a);
      case SendReady(_) => SocketKeepsNews(s, a);
      case Wake(_) => SocketKeepsNews(s, a);
      case SendChanged(_) => SocketKeepsNews(s, a);
      case Beat(_) => SocketKeepsNews(s, a);
      case Drop(_) => SocketKeepsNews(s, a);
      case Expire => OtherKeepsNews(s, a);
      case Lose(_) => OtherKeepsNews(s, a);
      case Leave => OtherKeepsNews(s, a);
      case Receive(_) => ReadKeepsNews(s, a);
      case Serve(_) => ReadKeepsNews(s, a);
      case Answer(_) => ReadKeepsNews(s, a);
      case Fail(_) => ReadKeepsNews(s, a);
      case Effect => ReadKeepsNews(s, a);
      case _ => OperationKeepsNews(s, a);
    }
  }

  lemma SomeoneKeepsNews(s: State, w: Write)
    requires News(s)
    ensures News(Ticked(s, Persist(s, w)))
  {
    PersistKeepsNews(s, w, s.task);
    assert Persist(s, w).(task := s.task) == Persist(s, w);
  }

  lemma SameSnapshot(s: State, t: State)
    requires ShownIsSnapshot(s) && s.log.floor <= V(s) && |s.versions| > 0
    requires t.me == s.me && t.client.shown == s.client.shown && t.log.shownAt == s.log.shownAt
        && t.log.floor == s.log.floor && s.versions <= t.versions
    ensures ShownIsSnapshot(t)
  {
  }

  ghost predicate SameList(s: State, t: State) {
    t.me == s.me && t.client.shown == s.client.shown && t.log.shownAt == s.log.shownAt && t.log.floor == s.log.floor
        && s.versions <= t.versions
    && t.log.seen == s.log.seen
  }

  lemma ServeTaskKeepsShown(s: State, a: Action)
    ensures SameList(s, ServeTask(s, a))
  {
    hide Asked, Top, Applied, RowOf, V;
  }

  lemma TaskKeepsShown(s: State, task: Task)
    ensures SameList(s, Begin(s, task)) && SameList(s, RefuseTask(s)) && SameList(s, FailTask(s))
  {
    hide Top, AlreadyDecided, NewStamp;
  }

  lemma OperationKeepsShown(s: State, a: Action)
    requires a.ServeLoad? || a.ServeWrite? || a.Refused? || a.TaskFails? || a.StartLoad? || a.StartWrite?
    ensures SameList(s, Act(s, a))
  {
    hide SameList, ServeTask, RefuseTask, FailTask, Begin, NewStamp;
    ServeTaskKeepsShown(s, a);
    TaskKeepsShown(s, if a.StartWrite? then Writing(NewStamp(s), a.request, 0) else Loading(NewStamp(s)));
  }

  lemma ReceiveKeepsShown(s: State, n: nat)
    ensures SameList(s, ReceiveFrame(s, n))
  {
    hide Without;
  }

  lemma TrackKeepsShown(s: State, c: Client)
    requires c.shown == s.client.shown
    ensures SameList(s, Track(s, c))
  {
    hide NewStamp;
  }

  lemma ReadStepKeepsShown(s: State, n: nat)
    ensures SameList(s, ServeRead(s, n)) && SameList(s, FailRead(s, n))
  {
    hide Without, V, Applies;
  }

  lemma ReadKeepsShown(s: State, a: Action)
    requires a.Serve? || a.Fail? || a.Effect? || a.Receive?
    ensures SameList(s, Act(s, a))
  {
    hide SameList, ReceiveFrame, ServeRead, FailRead, Track;
    if a.Receive? {
      ReceiveKeepsShown(s, a.socket);
    } else if a.Effect? {
      TrackKeepsShown(s, WorkEnded(s.client));
    } else {
      ReadStepKeepsShown(s, a.read);
    }
  }

  lemma ServerKeepsShown(s: State, a: Action)
    requires a.WriteBySomeone? || Aside(a)
    ensures SameList(s, Act(s, a))
  {
    if a.WriteBySomeone? {
      hide WriteOk, Applied, Top, RowOf;
    } else {
      AsideSameClient(s, a);
      hide Act;
    }
  }

  /** Only an answer that is shown, or an operation that ends with one, changes the list. */
  lemma NextKeepsShown(s: State, a: Action)
    requires !a.Answer? && !a.TaskDone?
    ensures SameList(s, Next(s, a))
  {
    hide Act;
    if a.ServeLoad? || a.ServeWrite? || a.Refused? || a.TaskFails? || a.StartLoad? || a.StartWrite? {
      OperationKeepsShown(s, a);
    } else if a.Serve? || a.Fail? || a.Effect? || a.Receive? {
      ReadKeepsShown(s, a);
    } else {
      ServerKeepsShown(s, a);
    }
  }

  lemma AnswerKeepsSnapshot(s: State, n: nat)
    requires ShownIsSnapshot(s) && s.log.floor <= V(s) && |s.versions| > 0
    requires n in s.live && s.live[n].served.Some? ==> s.live[n].served.value <= V(s)
    ensures ShownIsSnapshot(Ticked(s, AnswerRead(s, n))) && AnswerRead(s, n).versions == s.versions
  {
    hide Scoped;
    if n in s.live && n in s.client.inFlight && s.live[n].served.Some? && !Applies(s.client, n) {
      SameSnapshot(s, Ticked(s, AnswerRead(s, n)));
    }
  }

  lemma FinishKeepsSnapshot(s: State)
    requires ShownIsSnapshot(s) && s.log.floor <= V(s) && |s.versions| > 0
    requires s.task.Some? && s.task.value.stamp.served.Some? ==> s.task.value.stamp.served.value <= V(s)
    ensures ShownIsSnapshot(Ticked(s, FinishTask(s))) && FinishTask(s).versions == s.versions
  {
    hide Scoped, Patched;
  }

  lemma ServedInRange(s: State, n: nat)
    requires Inv(s)
    ensures s.log.floor <= V(s) && |s.versions| > 0
    ensures n in s.live && s.live[n].served.Some? ==> s.live[n].served.value <= V(s)
    ensures s.task.Some? && s.task.value.stamp.served.Some? ==> s.task.value.stamp.served.value <= V(s)
  {
    hide ShownOk, LogOk, ClientOk;
  }

  lemma NextKeepsSnapshot(s: State, a: Action)
    requires Inv(s) && ShownIsSnapshot(s)
    ensures ShownIsSnapshot(Next(s, a))
  {
    ServedInRange(s, if a.Answer? then a.read else 0);
    hide Inv, ShownIsSnapshot, AnswerRead, FinishTask;
    if s.ended {
    } else if a.Answer? {
      AnswerKeepsSnapshot(s, a.read);
    } else if a.TaskDone? {
      FinishKeepsSnapshot(s);
    } else {
      hide Next;
      NextKeepsShown(s, a);
      SameSnapshot(s, Next(s, a));
    }
  }

  lemma PersistKeepsSteps(s: State, w: Write)
    requires VersionSteps(s.versions) && VersionsOk(s.versions) && WriteOk(Top(s), w)
    ensures VersionSteps(Persist(s, w).versions)
  {
    WriteGrows(Top(s), w);
  }

  lemma NextKeepsSteps(s: State, a: Action)
    requires Inv(s) && VersionSteps(s.versions)
    ensures VersionSteps(Next(s, a).versions)
  {
    if s.ended {
    } else if a.WriteBySomeone? {
      if WriteOk(Top(s), a.write) { VersionsAreOk(s); PersistKeepsSteps(s, a.write); }
    } else if a.ServeWrite? {
      if s.task.Some? && Asked(s, s.task.value, a.write) { VersionsAreOk(s); PersistKeepsSteps(s, a.write); }
      hide VersionSteps, Inv, WriteOk, Applied, Top, RowOf;
    } else {
      hide VersionSteps, Inv;
      OthersKeepVersions(s, a);
    }
  }

  lemma VersionsAreOk(s: State)
    requires Inv(s)
    ensures VersionsOk(s.versions)
  {
  }

  lemma ReceiveSameVersions(s: State, n: nat)
    ensures ReceiveFrame(s, n).versions == s.versions
  {
    hide Changed, NewStamp, V, Without;
  }

  lemma OthersKeepVersions(s: State, a: Action)
    requires !a.WriteBySomeone? && !a.ServeWrite?
    ensures Next(s, a).versions == s.versions
  {
    if a.Receive? {
      hide ReceiveFrame;
      ReceiveSameVersions(s, a.socket);
    } else {
      hide Act;
      if Aside(a) {
        AsideSameClient(s, a);
      } else if a.Serve? || a.Answer? || a.Fail? || a.Effect? {
        ReadSameServer(s, a);
      } else {
        OperationSameServer(s, a);
      }
    }
  }

  lemma NextKeepsSound(s: State, a: Action)
    requires Sound(s)
    ensures Sound(Next(s, a))
  {
    hide Inv, VersionSteps, News, ShownIsSnapshot, Memory, Next, Kept;
    NextKeepsInv(s, a);
    NextKeepsSteps(s, a);
    NextKeepsNews(s, a);
    NextKeepsSnapshot(s, a);
    NextKeepsMemory(s, a);
  }

  lemma {:induction false} RunKeepsSound(s: State, actions: seq<Action>)
    requires Sound(s)
    ensures Sound(Run(s, actions))
    decreases |actions|
  {
    hide Sound, Next;
    if actions == [] {
    } else {
      NextKeepsSound(s, actions[0]);
      RunKeepsSound(Next(s, actions[0]), actions[1..]);
    }
  }

  lemma InitialSound(me: Actor, table: Table)
    requires UniqueIds(table)
    ensures Sound(Initial(me, table))
  {
    InitialOk(me, table);
  }

  // ----- a session at rest

  /** Connected, with nothing outstanding on either side. */
  predicate AtRest(s: State) {
    HasSubscription(s) && s.sockets[s.current.value] == Socket(Live, false, false, [])
    && s.unpublished == {} && s.live == map[] && s.task.None? && !s.client.drainDue
  }

  lemma {:induction false} FreshIsSame(me: Actor, versions: seq<Version>, a: nat)
    requires VersionSteps(versions) && a < |versions| && Fresh(me, versions, a)
    ensures ListFor(me, versions[a].table) == ListFor(me, versions[|versions| - 1].table)
    decreases |versions| - a
  {
    if a < |versions| - 1 {
      assert !Concerns(me, versions[a + 1].touched);
      UnannouncedChangesNothing(me, versions[a].table, versions[a + 1].table, versions[a + 1].touched);
      FreshIsSame(me, versions, a + 1);
    }
  }

  lemma SoundAtRest(s: State)
    requires Sound(s) && AtRest(s) && s.log.failure.None?
    ensures s.client.shown == ListFor(s.me, Top(s))
  {
    hide Inv, News, Memory, VersionSteps, ShownGood, ListFor;
    NotDirtyAtRest(s);
    ShownGoodAtRest(s);
    SnapshotIsCurrent(s);
  }

  lemma NotDirtyAtRest(s: State)
    requires Inv(s) && AtRest(s)
    ensures !s.client.dirty && s.log.floor <= V(s) && |s.versions| > 0
  {
    hide ShownOk, LogOk, ReadsStamped, ReadOrdered;
  }

  lemma ShownGoodAtRest(s: State)
    requires News(s) && AtRest(s) && s.log.failure.None? && !s.client.dirty
    ensures ShownGood(s.me, s.versions, s.log.shownAt)
  {
    hide Fresh;
  }

  lemma SnapshotIsCurrent(s: State)
    requires ShownIsSnapshot(s) && VersionSteps(s.versions) && s.log.floor <= V(s) && |s.versions| > 0
    requires ShownGood(s.me, s.versions, s.log.shownAt)
    ensures s.client.shown == ListFor(s.me, Top(s))
  {
    hide VersionSteps, Fresh, ListFor;
    FreshIsSame(s.me, s.versions, s.log.shownAt.value);
  }

  lemma NextSameActor(s: State, a: Action)
    ensures Next(s, a).me == s.me
  {
    if !a.Answer? && !a.TaskDone? { NextKeepsShown(s, a); hide Next; } else { hide Scoped, Patched, ReadOk; }
  }

  lemma {:induction false} SameActor(s: State, actions: seq<Action>)
    ensures Run(s, actions).me == s.me
    decreases |actions|
  {
    hide Next;
    if actions != [] {
      NextSameActor(s, actions[0]);
      SameActor(Next(s, actions[0]), actions[1..]);
    }
  }

  // ----- no lost invalidation

  lemma QuietLastChanged(s: State, a: Action)
    requires !a.Receive? && !a.TaskDone? && !a.Answer? && !a.Fail? && !a.Effect? && !a.ServeLoad? && !a.ServeWrite?
        && !a.Refused? && !a.TaskFails?
    ensures Act(s, a).log.lastChanged == s.log.lastChanged
  {
    hide Applied, WriteOk, SignalAll, Sender, Top, TableAt, Without, BeginWork, NewStamp, Concerns;
  }

  lemma OperationLastChanged(s: State, a: Action)
    requires a.TaskDone? || a.ServeLoad? || a.ServeWrite? || a.Refused? || a.TaskFails?
    ensures Act(s, a).log.lastChanged == s.log.lastChanged
  {
    ServeTaskReads(s, a);
    FinishTaskReads(s);
    RefuseTaskReads(s);
    hide ServeTask, FinishTask, RefuseTask, FailTask;
  }

  lemma ReadLastChanged(s: State, a: Action)
    requires a.Receive? || a.Answer? || a.Fail? || a.Effect?
    ensures Act(s, a).log.lastChanged == s.log.lastChanged || Act(s, a).log.lastChanged == s.log.clock
  {
    hide Changed, WorkEnded, Settled, ReadOk, Without, Scoped, TableAt, NewStamp;
  }

  lemma LastChangedGrows(s: State, a: Action)
    requires s.log.lastChanged < s.log.clock
    ensures Next(s, a).log.lastChanged >= s.log.lastChanged
  {
    hide Act;
    if a.Receive? || a.Answer? || a.Fail? || a.Effect? {
      ReadLastChanged(s, a);
    } else if a.TaskDone? || a.ServeLoad? || a.ServeWrite? || a.Refused? || a.TaskFails? {
      OperationLastChanged(s, a);
    } else {
      QuietLastChanged(s, a);
    }
  }

  lemma {:induction false} RunLastChanged(s: State, actions: seq<Action>)
    requires Sound(s)
    ensures Run(s, actions).log.lastChanged >= s.log.lastChanged
    decreases |actions|
  {
    if actions != [] {
      NextKeepsSound(s, actions[0]);
      assert s.log.lastChanged < s.log.clock by { hide Inv, VersionSteps, News, ShownIsSnapshot; }
      LastChangedGrows(s, actions[0]);
      hide Sound, Next;
      RunLastChanged(Next(s, actions[0]), actions[1..]);
    }
  }

  /**
   After a `changed` callback, at every later moment: the client is dirty, or its newest live read began
   after the callback and is in flight, or a read that began after it was shown, or that newest read
   failed; and a dirty client has an operation running or the drain at its end still to come.
   */
  lemma NoInvalidationIsLost(me: Actor, table: Table, before: seq<Action>, a: Action, after: seq<Action>)
    requires UniqueIds(table)
    requires var s := Run(Initial(me, table), before); Next(s, a).log.lastChanged == s.log.clock
    ensures var s := Run(Initial(me, table), before);
            var t := Run(Next(s, a), after);
            Remembered(t, s.log.clock) && (t.client.dirty ==> t.client.working || t.client.drainDue)
  {
    hide Next, Run, Sound, Initial, Remembered;
    InitialSound(me, table);
    RunKeepsSound(Initial(me, table), before);
    var s := Run(Initial(me, table), before);
    NextKeepsSound(s, a);
    RunKeepsSound(Next(s, a), after);
    RunLastChanged(Next(s, a), after);
    RememberedSince(Run(Next(s, a), after), s.log.clock);
  }

  lemma RememberedSince(t: State, since: nat)
    requires Sound(t) && t.log.lastChanged >= since
    ensures Remembered(t, since) && (t.client.dirty ==> t.client.working || t.client.drainDue)
  {
    hide VersionSteps, News, ShownIsSnapshot, VersionsOk, ShownOk, LogOk, ReadsStamped, ReadOrdered, TaskOk;
  }

  lemma RunOnce(s: State, a: Action)
    ensures Run(s, [a]) == Next(s, a) && Run(s, []) == s
  {
    hide Next;
    assert [a][1..] == [];
  }

  lemma {:induction false} RunTwice(s: State, before: seq<Action>, after: seq<Action>)
    ensures Run(s, before + after) == Run(Run(s, before), after)
    decreases |before|
  {
    hide Next;
    if before == [] {
      assert before + after == after;
    } else {
      assert (before + after)[1..] == before[1..] + after && (before + after)[0] == before[0];
      RunTwice(Next(s, before[0]), before[1..], after);
    }
  }

  lemma RunThree(s: State, a: Action, b: Action, c: Action)
    ensures Run(s, [a, b, c]) == Next(Next(Next(s, a), b), c)
  {
    hide Next;
    assert [a, b, c][1..] == [b, c] && [b, c][1..] == [c];
    assert Run(s, [a, b, c]) == Run(Next(s, a), [b, c]);
    assert Run(Next(s, a), [b, c]) == Run(Next(Next(s, a), b), [c]);
    RunOnce(Next(Next(s, a), b), c);
  }
}

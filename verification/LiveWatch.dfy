/**
 The socket code of module LiveSocket inside the session of module ReviewLive: every event the browser
 delivers is at most one step of the session, its callbacks are the ones the session takes, and so what
 is proved of every session holds of the sessions this code takes part in.
 */
module LiveWatch {
  import opened Wrappers
  import ReviewClient
  import opened ReviewTable
  import opened ReviewLive
  import opened LiveSafety
  import opened LiveConvergence
  import opened LiveExact
  import W = LiveSocket

  /** The client's end of the socket, and the session around it. */
  datatype Joint = Joint(watcher: W.Watcher, session: State)

  /** A step elsewhere in the session, an event of the browser, or the end of the session by its user. */
  datatype Step = Elsewhere(action: Action) | Browser(event: W.Event) | Leaves

  /** What the client makes of a frame of the server. */
  function Seen(f: Frame): W.Frame
    requires !f.CloseFrame?
  {
    match f
    case ReadyFrame => W.Ready
    case ChangedFrame => W.ReviewsChanged
    case HeartbeatFrame => W.OtherType
  }

  predicate Arriving(s: State, n: nat) {
    n in s.sockets && s.sockets[n].frames != []
  }

  /** The events that can happen: a frame is the oldest in transit, and code 1008 comes from the server. */
  predicate Delivers(j: Joint, e: W.Event) {
    match e
    case Message(n, f) =>
      n < j.watcher.made && n !in j.watcher.over && Arriving(j.session, n)
      && !j.session.sockets[n].frames[0].CloseFrame? && f == Seen(j.session.sockets[n].frames[0])
    case Closed(n, policy) =>
      n < j.watcher.made && n !in j.watcher.over
      && (policy ==> Arriving(j.session, n) && j.session.sockets[n].frames[0] == CloseFrame(true))
    case _ => true
  }

  /** The step of the session: a frame is received, a socket dies without one, or a socket is opened. */
  function SessionSteps(j: Joint, step: Step): seq<Action> {
    match step
    case Elsewhere(a) => if a.Connect? || a.Receive? || a.Lose? || a.Leave? then [] else [a]
    case Leaves => [Leave]
    case Browser(e) =>
      if !Delivers(j, e) then []
      else match e
        case Message(n, _) => [Receive(n)]
        case Closed(n, policy) =>
          if Arriving(j.session, n) && j.session.sockets[n].frames[0] == CloseFrame(policy) then [Receive(n)]
              else [Lose(n)]
        case _ => if W.Next(j.watcher, e).0.made != j.watcher.made then [Connect] else []
  }

  function Calls(j: Joint, step: Step): seq<W.Call> {
    if step.Browser? && Delivers(j, step.event) then W.Next(j.watcher, step.event).1 else []
  }

  function JointNext(j: Joint, step: Step): Joint {
    var w := match step
      case Elsewhere(_) => j.watcher
      case Leaves => W.Stopped(j.watcher)
      case Browser(e) => if Delivers(j, e) then W.Next(j.watcher, e).0 else j.watcher;
    Joint(w, Run(j.session, SessionSteps(j, step)))
  }

  function JointRun(j: Joint, steps: seq<Step>): Joint
    decreases |steps|
  {
    if steps == [] then j else JointRun(JointNext(j, steps[0]), steps[1..])
  }

  function AllSteps(j: Joint, steps: seq<Step>): seq<Action>
    decreases |steps|
  {
    if steps == [] then [] else SessionSteps(j, steps[0]) + AllSteps(JointNext(j, steps[0]), steps[1..])
  }

  /** The session starts with its list being loaded; the socket code connects at once. */
  function Begun(me: Actor, table: Table, online: bool, creates: bool): Joint {
    Joint(W.Start(online, creates).0, Run(Initial(me, table), FirstSteps(online, creates)))
  }

  function FirstSteps(online: bool, creates: bool): seq<Action> {
    if online && creates then [Connect] else []
  }

  // ----- the two agree

  ghost predicate Coupled(j: Joint) {
    j.watcher.stopped == j.session.ended && j.watcher.socket == j.session.current
    && j.watcher.made == j.session.nextSocket
  }

  /** What a frame or close event does on both sides. */
  ghost predicate Agree(j: Joint, e: W.Event) {
    var (s, t, calls) := (j.session, JointNext(j, Browser(e)).session, W.Next(j.watcher, e).1);
    && W.Count(calls, W.Changed) <= 1 && W.Count(calls, W.Expired) <= 1
    && t.client == (if W.Changed in calls then ReviewClient.Changed(s.client) else s.client)
    && (t.log.lastChanged, t.log.changedAt)
       == (if W.Changed in calls then (s.log.clock, V(s)) else (s.log.lastChanged, s.log.changedAt))
    && (t.ended <==> s.ended || W.Expired in calls)
  }

  lemma ReceivedFrame(s: State, n: nat)
    requires !s.ended && Arriving(s, n)
    ensures var (t, f) := (Next(s, Receive(n)), s.sockets[n].frames[0]);
            && t.client == (if s.current == Some(n) && (f.ReadyFrame? || f.ChangedFrame?)
                then ReviewClient.Changed(s.client)
                            else s.client)
            && (t.log.lastChanged, t.log.changedAt)
               == (if s.current == Some(n) && (f.ReadyFrame? || f.ChangedFrame?) then (s.log.clock, V(s))
                   else (s.log.lastChanged, s.log.changedAt))
            && (t.ended <==> s.current == Some(n) && f == CloseFrame(true))
            && t.current == s.current && t.nextSocket == s.nextSocket
  {
    hide NewStamp, ReviewClient.Changed, Without;
    assert V(Noticed(s, n)) == V(s);
  }

  lemma LosesSocket(s: State, n: nat)
    ensures var t := Next(s, Lose(n));
            t.client == s.client && t.ended == s.ended && t.current == s.current && t.nextSocket == s.nextSocket
            && (t.log.lastChanged, t.log.changedAt) == (s.log.lastChanged, s.log.changedAt)
  {
    hide Without;
  }

  lemma OpensSocket(s: State)
    ensures var t := Next(s, Connect);
            && t.client == s.client && t.ended == s.ended
            && (t.log.lastChanged, t.log.changedAt) == (s.log.lastChanged, s.log.changedAt)
            && (!s.ended ==> t.current == Some(s.nextSocket) && t.nextSocket == s.nextSocket + 1)
  {
  }

  lemma LeavesSession(s: State)
    ensures var t := Next(s, Leave);
            t.ended && t.current == s.current && t.nextSocket == s.nextSocket && (s.ended ==> t == s)
  {
  }

  lemma MessageAgrees(j: Joint, n: nat, f: W.Frame)
    requires Coupled(j) && Delivers(j, W.Message(n, f))
    ensures Coupled(JointNext(j, Browser(W.Message(n, f)))) && Agree(j, W.Message(n, f))
  {
    hide Run, Next, ReviewClient.Changed, V;
    RunOnce(j.session, Receive(n));
    if !j.session.ended { ReceivedFrame(j.session, n); } else { EndedStays(j.session, Receive(n)); }
  }

  lemma EndedStays(s: State, a: Action)
    requires s.ended
    ensures Next(s, a) == s
  {
  }

  lemma CloseAgrees(j: Joint, n: nat, policy: bool)
    requires Coupled(j) && Delivers(j, W.Closed(n, policy))
    ensures Coupled(JointNext(j, Browser(W.Closed(n, policy)))) && Agree(j, W.Closed(n, policy))
  {
    hide Run, Next, ReviewClient.Changed, V;
    RunOnce(j.session, Receive(n));
    RunOnce(j.session, Lose(n));
    LosesSocket(j.session, n);
    if j.session.ended {
      EndedStays(j.session, Receive(n));
      EndedStays(j.session, Lose(n));
    } else if Arriving(j.session, n) {
      ReceivedFrame(j.session, n);
    }
  }

  lemma OtherEventAgrees(j: Joint, e: W.Event)
    requires Coupled(j) && !e.Message? && !e.Closed?
    ensures Coupled(JointNext(j, Browser(e))) && Agree(j, e)
  {
    hide Run, Next, ReviewClient.Changed, V, W.Next;
    W.OtherEventsConnect(j.watcher, e);
    RunOnce(j.session, Connect);
    OpensSocket(j.session);
  }

  /**
   Every event the browser can deliver takes the session's own step: a reload callback exactly where the
   session is called back, an expiry exactly where it ends, and a new socket exactly where one is opened.
   */
  lemma EventsAgree(j: Joint, e: W.Event)
    requires Coupled(j) && Delivers(j, e)
    ensures Coupled(JointNext(j, Browser(e))) && Agree(j, e)
  {
    match e
    case Message(n, f) => MessageAgrees(j, n, f);
    case Closed(n, policy) => CloseAgrees(j, n, policy);
    case _ => OtherEventAgrees(j, e);
  }

  // ----- every run

  /** Nothing elsewhere opens, replaces or ends the socket. */
  ghost predicate SameLink(s: State, t: State) {
    t.ended == s.ended && t.current == s.current && t.nextSocket == s.nextSocket
  }

  lemma SenderSameLink(s: State, n: nat, a: Action)
    ensures SameLink(s, ServerStep(s, n, a))
  {
    hide Sender;
  }

  lemma PublishSameLink(s: State, k: nat)
    ensures SameLink(s, PublishVersion(s, k))
  {
    hide SignalAll, Concerns;
  }

  lemma WriteSameLink(s: State, w: Write)
    ensures SameLink(s, Persist(s, w))
  {
    hide Applied, RowOf, Top;
  }

  lemma TaskSameLink(s: State, task: Task, a: Action)
    ensures SameLink(s, Begin(s, task)) && SameLink(s, ServeTask(s, a)) && SameLink(s, RefuseTask(s))
    ensures SameLink(s, FailTask(s))
  {
    hide Asked, Applied, RowOf, Top, AlreadyDecided, NewStamp;
  }

  lemma FinishSameLink(s: State, stamp: Stamp, request: Request, at: nat, k: nat)
    ensures SameLink(s, FinishLoad(s, stamp, k)) && SameLink(s, FinishWrite(s, request, at, k))
  {
    hide Scoped, ReviewClient.Patched, TableAt, Received, Answered, V;
  }

  lemma FinishTaskSameLink(s: State)
    ensures SameLink(s, FinishTask(s))
  {
    hide FinishLoad, FinishWrite;
    if s.task.Some? && s.task.value.stamp.served.Some? {
      var (request, at) := if s.task.value.Writing? then (s.task.value.request, s.task.value.at) else (SubmitRun(0), 0);
      FinishSameLink(s, s.task.value.stamp, request, at, s.task.value.stamp.served.value);
    }
  }

  lemma ReadSameLink(s: State, n: nat, c: ReviewClient.Client)
    ensures SameLink(s, ServeRead(s, n)) && SameLink(s, AnswerRead(s, n)) && SameLink(s, FailRead(s, n))
    ensures SameLink(s, Track(s, c))
  {
    hide Scoped, TableAt, Received, V, ReviewClient.ReadOk, Without, Applies, NewStamp, ReviewClient.Settled;
  }

  lemma OtherSameLink(s: State, a: Action)
    requires a.WriteBySomeone? || Aside(a)
    requires !a.Connect? && !a.Lose? && !a.Leave?
    ensures SameLink(s, Act(s, a))
  {
    hide ServerStep, PublishVersion, Persist, SignalAll, WriteOk, Top;
    match a
    case WriteBySomeone(w) => WriteSameLink(s, w);
    case Publish(k) => PublishSameLink(s, k);
    case Subscribe(n) => SenderSameLink(s, n, a);
    case TurnAway(n) => SenderSameLink(s, n, a);
    case SendReady(n) => SenderSameLink(s, n, a);
    case Wake(n) => SenderSameLink(s, n, a);
    case SendChanged(n) => SenderSameLink(s, n, a);
    case Beat(n) => SenderSameLink(s, n, a);
    case Drop(n) => SenderSameLink(s, n, a);
    case _ =>
  }

  lemma ElsewhereSameLink(s: State, a: Action)
    requires !a.Connect? && !a.Receive? && !a.Lose? && !a.Leave?
    ensures SameLink(s, Next(s, a))
  {
    hide Begin, ServeTask, RefuseTask, FailTask, FinishTask, ServeRead, AnswerRead, FailRead, Track, NewStamp, SameLink;
    if a.WriteBySomeone? || Aside(a) {
      hide Act;
      OtherSameLink(s, a);
    } else if a.Effect? || a.Serve? || a.Answer? || a.Fail? {
      ReadSameLink(s, if a.Effect? then 0 else a.read, ReviewClient.WorkEnded(s.client));
    } else {
      FinishTaskSameLink(s);
      TaskSameLink(s, if a.StartWrite? then Writing(NewStamp(s), a.request, 0) else Loading(NewStamp(s)), a);
    }
    TickSameLink(s, Act(s, a));
  }

  lemma TickSameLink(s: State, t: State)
    requires SameLink(s, t)
    ensures SameLink(s, s) && SameLink(s, Ticked(s, t))
  {
  }

  lemma StepKeepsCoupled(j: Joint, step: Step)
    requires Coupled(j)
    ensures Coupled(JointNext(j, step))
  {
    match step
    case Elsewhere(a) =>
      hide Run, Next;
      RunOnce(j.session, a);
      if !(a.Connect? || a.Receive? || a.Lose? || a.Leave?) { ElsewhereSameLink(j.session, a); }
    case Leaves =>
      hide Run, Next;
      RunOnce(j.session, Leave);
      LeavesSession(j.session);
    case Browser(e) =>
      hide Run, Next;
      RunOnce(j.session, Leave);
      if Delivers(j, e) { EventsAgree(j, e); }
  }

  lemma {:induction false} JointRunRefines(j: Joint, steps: seq<Step>)
    requires Coupled(j)
    ensures Coupled(JointRun(j, steps)) && JointRun(j, steps).session == Run(j.session, AllSteps(j, steps))
    decreases |steps|
  {
    hide Next, JointNext, SessionSteps;
    if steps == [] {
      RunOnce(j.session, Leave);
    } else {
      var k := JointNext(j, steps[0]);
      StepKeepsCoupled(j, steps[0]);
      JointRunRefines(k, steps[1..]);
      RunTwice(j.session, SessionSteps(j, steps[0]), AllSteps(k, steps[1..]));
      SessionOf(j, steps[0]);
    }
  }

  lemma SessionOf(j: Joint, step: Step)
    ensures JointNext(j, step).session == Run(j.session, SessionSteps(j, step))
  {
  }

  lemma BegunCoupled(me: Actor, table: Table, online: bool, creates: bool)
    ensures Coupled(Begun(me, table, online, creates))
  {
    hide Run, Next;
    RunOnce(Initial(me, table), Connect);
    OpensSocket(Initial(me, table));
  }

  /** Whatever the browser and the server do, the session around the socket code is a session of module ReviewLive. */
  lemma WatchedIsASession(me: Actor, table: Table, online: bool, creates: bool, steps: seq<Step>)
    ensures var j := JointRun(Begun(me, table, online, creates), steps);
            Coupled(j) && j.session == Run(Initial(me, table),
                FirstSteps(online, creates) + AllSteps(Begun(me, table, online,
                creates), steps))
  {
    hide Run, JointRun, Next, AllSteps, Coupled, FirstSteps;
    BegunCoupled(me, table, online, creates);
    JointRunRefines(Begun(me, table, online, creates), steps);
    RunTwice(Initial(me, table), FirstSteps(online, creates), AllSteps(Begun(me, table, online, creates), steps));
  }

  /**
   So convergence rests on the closures: after any events, once the connected session has nothing outstanding
   and its newest live read did not fail, or a list as of the last callback was shown, it shows exactly the
   list the server would send.
   */
  lemma WatchedSessionConverges(me: Actor, table: Table, online: bool, creates: bool, steps: seq<Step>)
    requires UniqueIds(table)
    requires var s := JointRun(Begun(me, table, online, creates), steps).session;
        AtRest(s) && (s.log.failure.None? || LoadedSinceNews(s.log))
    ensures var s := JointRun(Begun(me, table, online, creates), steps).session;
            s.client.shown == ListFor(me, Top(s))
  {
    hide Run, JointRun, Coupled, AtRest, ListFor;
    WatchedIsASession(me, table, online, creates, steps);
    SessionAtRestShowsTheServersList(me, table,
      FirstSteps(online, creates) + AllSteps(Begun(me, table, online, creates), steps));
  }

  /** And a reload the socket code asked for is remembered at every later moment of the session. */
  lemma WatchedReloadIsRemembered(me: Actor, table: Table, online: bool, creates: bool, before: seq<Step>, n: nat,
      f: W.Frame, after: seq<Action>)
    requires UniqueIds(table)
    requires var j := JointRun(Begun(me, table, online, creates), before);
        Delivers(j, W.Message(n, f)) && W.Changed in W.Next(j.watcher, W.Message(n, f)).1
    ensures var j := JointRun(Begun(me, table, online, creates), before);
            var t := Run(JointNext(j, Browser(W.Message(n, f))).session, after);
            Remembered(t, j.session.log.clock) && (t.client.dirty ==> t.client.working || t.client.drainDue)
  {
    hide Run, JointRun, Next, Initial, Remembered, Begun, FirstSteps, AllSteps, W.Next;
    WatchedIsASession(me, table, online, creates, before);
    var j := JointRun(Begun(me, table, online, creates), before);
    EventsAgree(j, W.Message(n, f));
    RunOnce(j.session, Receive(n));
    NoInvalidationIsLost(me, table, FirstSteps(online, creates) + AllSteps(Begun(me, table, online, creates), before),
      Receive(n), after);
  }
}

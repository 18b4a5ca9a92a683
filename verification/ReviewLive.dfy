/**
 One review session end to end: the server's table of reviews and its notifications
 (coordinator-dotnet/Services/ReviewService.cs:44-71, coordinator-dotnet/Services/ReviewUpdates.cs:14-49,
 coordinator-dotnet/Controllers/ReviewLiveController.cs:46-81), the sockets between
 (client/src/review-live.ts:17-73) and the client of module ReviewClient. Any number of other people
 write at any time, a request may fail before or after the server has served it, and a socket may die
 at any moment.
 */
module ReviewLive {
  import opened Wrappers
  import opened ReviewClient
  import opened ReviewTable

  datatype Frame = ReadyFrame | ChangedFrame | HeartbeatFrame | CloseFrame(policy: bool)

  /** The server's end: waiting for the first frame, subscribed, past `ready`, or finished. */
  datatype Phase = Opening | Subscribed | Live | Gone

  /** `token` is the capacity-1 channel, `sending` a change drained but not yet sent, `frames` those in transit. */
  datatype Socket = Socket(phase: Phase, token: bool, sending: bool, frames: seq<Frame>)

  /** A list request: when it started, the version then, and the version it was served at. */
  datatype Stamp = Stamp(time: nat, version: nat, served: Option<nat>)

  datatype Request = SubmitRun(runId: nat) | DecideOn(id: nat)

  /** The foreground operation. A write's answer is row `at` of the version it produced. */
  datatype Task = Loading(stamp: Stamp) | Writing(stamp: Stamp, request: Request, at: nat)

  datatype Lifetime = Lifetime(started: nat, ended: nat, version: nat)

  /**
   How the newest live read failed: whether the client reported it, and whether an operation began or
   ended during it.
   */
  datatype Failure = Failure(reported: bool, overlapped: bool)

  /**
   What the proofs remember: the time, the version when the shown list last changed (`floor`) and that
   moment, the last `changed` callback and the version then, the last beginning or end of an operation,
   the start of the last live read shown, the failure of the newest live read, the version shown if the
   list is exactly a snapshot, the version at which each row shown was last received, and the reads that
   were shown.
   */
  datatype Log = Log(
    clock: nat,
    floor: nat,
    lastEnd: nat,
    lastChanged: nat,
    changedAt: nat,
    lastWork: nat,
    liveStart: nat,
    failure: Option<Failure>,
    shownAt: Option<nat>,
    seen: map<nat, nat>,
    applied: seq<Lifetime>)

  datatype State = State(
    me: Actor,
    versions: seq<Version>,
    unpublished: set<nat>,
    sockets: map<nat, Socket>,
    nextSocket: nat,
    current: Option<nat>,
    authorized: bool,
    ended: bool,
    client: Client,
    live: map<nat, Stamp>,
    task: Option<Task>,
    log: Log)

  function Initial(me: Actor, table: Table): State {
    State(me, [Version(table, "", 0)], {}, map[], 0, None, true, false, FIRST, map[], Some(Loading(Stamp(1, 0, None))),
      Log(2, 0, 0, 0, 0, 1, 0, None, None, map[], []))
  }

  datatype Action =
    | WriteBySomeone(write: Write)
    | Publish(version: nat)
    | Revoke
    | Expire
    | Connect
    | Subscribe(socket: nat)
    | TurnAway(socket: nat)
    | SendReady(socket: nat)
    | Wake(socket: nat)
    | SendChanged(socket: nat)
    | Beat(socket: nat)
    | Drop(socket: nat)
    | Receive(socket: nat)
    | Lose(socket: nat)
    | StartLoad
    | StartWrite(request: Request)
    | ServeLoad
    | ServeWrite(write: Write)
    | Refused
    | TaskDone
    | TaskFails
    | Serve(read: nat)
    | Answer(read: nat)
    | Fail(read: nat)
    | Effect
    | Leave

  // ----- the server

  /** The number of the newest version. */
  function V(s: State): nat {
    if s.versions == [] then 0 else |s.versions| - 1
  }

  function TableAt(s: State, version: nat): Table {
    if version < |s.versions| then s.versions[version].table else []
  }

  function Top(s: State): Table {
    TableAt(s, V(s))
  }

  function Persist(s: State, w: Write): State {
    s.(versions := s.versions + [Version(Applied(Top(s), w), w.review.researcherId, RowOf(Top(s), w))],
       unpublished := s.unpublished + {|s.versions|})
  }

  function Signal(k: Socket): Socket {
    if k.phase.Subscribed? || k.phase.Live? then k.(token := true) else k
  }

  function SignalAll(sockets: map<nat, Socket>): map<nat, Socket> {
    map n | n in sockets :: Signal(sockets[n])
  }

  /** The subscribers a write reaches: reviewers, and the researcher whose review it is. */
  function PublishVersion(s: State, k: nat): State {
    if k !in s.unpublished then s
    else
      var t := s.(unpublished := s.unpublished - {k});
      if k < |s.versions| && Concerns(s.me, s.versions[k].touched) then t.(sockets := SignalAll(s.sockets)) else t
  }

  /** The sender loop checks the session before every frame it sends. */
  function Closing(k: Socket, policy: bool): Socket {
    Socket(Gone, false, false, k.frames + [CloseFrame(policy)])
  }

  function Sender(k: Socket, a: Action, authorized: bool): Socket {
    match a
    case Subscribe(_) => if !k.phase.Opening? then k else if authorized then k.(phase := Subscribed)
        else Closing(k, true)
    case TurnAway(_) => if k.phase.Opening? then Closing(k, false) else k
    case SendReady(_) => if k.phase.Subscribed? then k.(phase := Live, frames := k.frames + [ReadyFrame]) else k
    case Wake(_) =>
      if !k.phase.Live? || !k.token || k.sending then k
      else if authorized then k.(token := false, sending := true) else Closing(k, true)
    case SendChanged(_) =>
      if k.phase.Live? && k.sending then k.(sending := false, frames := k.frames + [ChangedFrame]) else k
    case Beat(_) =>
      if !k.phase.Live? || k.sending then k
      else if authorized then k.(frames := k.frames + [HeartbeatFrame]) else Closing(k, true)
    case Drop(_) => Socket(Gone, false, false, k.frames)
    case _ => k
  }

  function ServerStep(s: State, n: nat, a: Action): State {
    if n in s.sockets then s.(sockets := s.sockets[n := Sender(s.sockets[n], a, s.authorized)]) else s
  }

  // ----- the client

  function Scoped(me: Actor, table: Table): Reviews {
    ListFor(me, table)
  }

  function NewStamp(s: State): Stamp {
    Stamp(s.log.clock, V(s), None)
  }

  /** A callback of the client; a read it starts is stamped. */
  function Track(s: State, c: Client): State {
    if c.latest == s.client.latest then s.(client := c)
    else s.(client := c, live := s.live[c.latest := NewStamp(s)], log := s.log.(failure := None))
  }

  function OnChanged(s: State): State {
    Track(s.(log := s.log.(lastChanged := s.log.clock, changedAt := V(s))), Changed(s.client))
  }

  function ReceiveFrame(s: State, n: nat): State {
    if n !in s.sockets || s.sockets[n].frames == [] then s
    else
      var f, t := s.sockets[n].frames[0],
        s.(sockets := s.sockets[n := s.sockets[n].(frames := s.sockets[n].frames[1..])]);
      if s.current != Some(n) then t
      else match f
        case ReadyFrame => OnChanged(t)
        case ChangedFrame => OnChanged(t)
        case HeartbeatFrame => t
        case CloseFrame(policy) => if policy then t.(ended := true) else t.(sockets := Without(s.sockets, n))
  }

  /** The list on the screen changes: to version `at` of the server's list, or by the row of a write. */
  function Show(s: State, c: Client, at: Option<nat>, seen: map<nat, nat>): State {
    s.(client := c, log := s.log.(floor := V(s), lastEnd := s.log.clock, shownAt := at, seen := seen))
  }

  /** Every row of a loaded list was received at its version. */
  function Received(me: Actor, table: Table, version: nat): map<nat, nat> {
    map i: nat | i < |table| && InScope(me, table[i]) :: version
  }

  /** A submitted row is shown; a decided one replaces the row if that is shown. */
  function Answered(seen: map<nat, nat>, request: Request, at: nat, version: nat): map<nat, nat> {
    if request.SubmitRun? || at in seen then seen[at := version] else seen
  }

  /** An operation begins or ends. */
  function Worked(s: State): State {
    s.(log := s.log.(lastWork := s.log.clock))
  }

  function Record(s: State, stamp: Stamp, version: nat): State {
    s.(log := s.log.(applied := s.log.applied + [Lifetime(stamp.time, s.log.clock, version)]))
  }

  predicate Applies(c: Client, n: nat) {
    n in c.inFlight && n == c.latest && c.inFlight[n] == c.foreground
  }

  function AnswerRead(s: State, n: nat): State {
    if n !in s.live || n !in s.client.inFlight || s.live[n].served.None? then s
    else
      var stamp := s.live[n];
      var version := stamp.served.value;
      var c := ReadOk(s.client, n, Scoped(s.me, TableAt(s, version)));
      var t := s.(live := Without(s.live, n));
      if Applies(s.client, n) then
        var shown := Record(Show(t, c, Some(version), Received(s.me, TableAt(s, version), version)), stamp, version);
        shown.(log := shown.log.(liveStart := stamp.time))
      else Track(t, c)
  }

  function FailRead(s: State, n: nat): State {
    if n !in s.live then s
    else
      var t := s.(live := Without(s.live, n), client := Settled(s.client, n));
      if n != s.client.latest then t
      else t.(log := s.log.(failure := Some(Failure(Applies(s.client, n), s.live[n].time <= s.log.lastWork))))
  }

  function Begin(s: State, task: Task): State {
    if s.client.working || s.task.Some? then s else Worked(s.(client := BeginWork(s.client), task := Some(task)))
  }

  /** What the server checks before the write the client asked for. */
  predicate Asked(s: State, task: Task, w: Write) {
    task.Writing? && task.stamp.served.None? && s.authorized && WriteOk(Top(s), w)
    && match task.request
       case SubmitRun(runId) => s.me.Researcher? && w.Submit? && w.review.runId == runId
           && w.review.researcherId == s.me.id
       case DecideOn(id) => s.me.Reviewer? && w.Decide? && w.review.id == id
  }

  function ServeTask(s: State, a: Action): State {
    if s.task.None? then s
    else if a.ServeLoad? && s.task.value.Loading? && s.authorized && s.task.value.stamp.served.None? then
      s.(task := Some(Loading(s.task.value.stamp.(served := Some(V(s))))))
    else if a.ServeWrite? && Asked(s, s.task.value, a.write) then
      Persist(s, a.write).(task := Some(Writing(s.task.value.stamp.(served := Some(|s.versions|)), s.task.value.request,
          RowOf(Top(s), a.write))))
    else s
  }

  /** A decision that lost: the operation goes on to load the list. */
  function RefuseTask(s: State): State {
    if s.task.Some? && s.task.value.Writing? && s.task.value.request.DecideOn? && s.task.value.stamp.served.None?
        && AlreadyDecided(Top(s), s.task.value.request.id)
    then s.(task := Some(Loading(NewStamp(s))))
    else s
  }

  /** A list loaded by an operation is shown, and the operation ends. */
  function FinishLoad(s: State, stamp: Stamp, k: nat): State {
    var c := EndWork(s.client.(shown := Scoped(s.me, TableAt(s, k))));
    Worked(Record(Show(s.(task := None), c, Some(k), Received(s.me, TableAt(s, k), k)), stamp, k))
  }

  /** The row a write returned is shown, and the operation ends. */
  function FinishWrite(s: State, request: Request, at: nat, k: nat): State {
    if at >= |TableAt(s, k)| then s
    else
      var row := TableAt(s, k)[at];
      var c := EndWork(s.client.(shown := if request.SubmitRun? then [row] + s.client.shown
        else Patched(s.client.shown, row)));
      Worked(Show(s.(task := None), c, None, Answered(s.log.seen, request, at, k)))
  }

  function FinishTask(s: State): State {
    if s.task.None? || s.task.value.stamp.served.None? then s
    else match s.task.value
      case Loading(stamp) => FinishLoad(s, stamp, stamp.served.value)
      case Writing(stamp, request, at) => if stamp.served.value in s.unpublished then s
          else FinishWrite(s, request, at, stamp.served.value)
  }

  function FailTask(s: State): State {
    if s.task.None? then s else Worked(s.(client := EndWork(s.client), task := None))
  }

  function ServeRead(s: State, n: nat): State {
    if n in s.live && s.live[n].served.None? && s.authorized
    then s.(live := s.live[n := s.live[n].(served := Some(V(s)))])
    else s
  }

  function OpenSocket(s: State): State {
    s.(sockets := s.sockets[s.nextSocket := Socket(Opening, false, false, [])], nextSocket := s.nextSocket + 1,
        current := Some(s.nextSocket))
  }

  function Act(s: State, a: Action): State {
    match a
    case WriteBySomeone(w) => if WriteOk(Top(s), w) then Persist(s, w) else s
    case Publish(k) => PublishVersion(s, k)
    case Revoke => s.(authorized := false, sockets := SignalAll(s.sockets))
    case Expire => s.(authorized := false)
    case Connect => OpenSocket(s)
    case Subscribe(n) => ServerStep(s, n, a)
    case TurnAway(n) => ServerStep(s, n, a)
    case SendReady(n) => ServerStep(s, n, a)
    case Wake(n) => ServerStep(s, n, a)
    case SendChanged(n) => ServerStep(s, n, a)
    case Beat(n) => ServerStep(s, n, a)
    case Drop(n) => ServerStep(s, n, a)
    case Receive(n) => ReceiveFrame(s, n)
    case Lose(n) => s.(sockets := Without(s.sockets, n))
    case StartLoad => Begin(s, Loading(NewStamp(s)))
    case StartWrite(request) => Begin(s, Writing(NewStamp(s), request, 0))
    case ServeLoad => ServeTask(s, a)
    case ServeWrite(_) => ServeTask(s, a)
    case Refused => RefuseTask(s)
    case TaskDone => FinishTask(s)
    case TaskFails => FailTask(s)
    case Serve(n) => ServeRead(s, n)
    case Answer(n) => AnswerRead(s, n)
    case Fail(n) => FailRead(s, n)
    case Effect => Track(s, WorkEnded(s.client))
    case Leave => s.(ended := true)
  }

  /** Nothing happens after the session; before that every step takes time. */
  function Next(s: State, a: Action): State {
    if s.ended then s else Act(s, a).(log := Act(s, a).log.(clock := s.log.clock + 1))
  }

  function Run(s: State, actions: seq<Action>): State
    decreases |actions|
  {
    if actions == [] then s else Run(Next(s, actions[0]), actions[1..])
  }
}

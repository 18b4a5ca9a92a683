/**
 The client's end of a review session's socket (client/src/review-live.ts:4-74): which socket is heard,
 when the next attempt is made, and which callbacks reach the workspace.
 */
module LiveSocket {
  import opened Wrappers

  datatype Status = Connecting | Connected | Reconnecting | Manual

  datatype Call = StatusIs(status: Status) | Changed | Expired

  datatype Frame = Ready | ReviewsChanged | OtherType | NotJson

  const FIRST_DELAY := 1000

  const LAST_DELAY := 30000

  /**
   `made` counts the sockets created, so `socket` is the newest; `closing` holds those on which close()
   was called, `over` those whose close event has been delivered. `watchdog` names the socket the timer
   will close. `online` is the browser's state, and `manual` says that no socket could be created.
   */
  datatype Watcher = Watcher(
    stopped: bool,
    online: bool,
    manual: bool,
    socket: Option<nat>,
    made: nat,
    closing: set<nat>,
    over: set<nat>,
    retry: bool,
    watchdog: Option<nat>,
    backoff: nat)

  function Closing(w: Watcher): Watcher {
    if w.socket.Some? then w.(closing := w.closing + {w.socket.value}) else w
  }

  /** `creates` says whether the WebSocket constructor returns. */
  function Connect(w: Watcher, creates: bool): (Watcher, seq<Call>) {
    if w.stopped || !w.online then (w, [])
    else
      var t := w.(retry := false);
      if !creates then (t.(manual := true), [StatusIs(Connecting), StatusIs(Manual)])
      else (t.(manual := false, socket := Some(w.made), made := w.made + 1, watchdog := Some(w.made)),
          [StatusIs(Connecting)])
  }

  predicate Heard(w: Watcher, n: nat) {
    !w.stopped && w.socket == Some(n)
  }

  function OnMessage(w: Watcher, n: nat, f: Frame): (Watcher, seq<Call>) {
    if !Heard(w, n) then (w, [])
    else
      var t := w.(watchdog := Some(n));
      match f
      case NotJson => (t.(closing := t.closing + {n}), [])
      case Ready => (t.(backoff := FIRST_DELAY), [StatusIs(Connected), Changed])
      case ReviewsChanged => (t, [Changed])
      case OtherType => (t, [])
  }

  function Doubled(backoff: nat): nat {
    if backoff * 2 < LAST_DELAY then backoff * 2 else LAST_DELAY
  }

  /** Code 1008 ends the session. */
  function OnClose(w: Watcher, n: nat, policy: bool): (Watcher, seq<Call>) {
    var t := w.(over := w.over + {n});
    if !Heard(w, n) then (t, [])
    else if policy then (t.(watchdog := None, stopped := true), [Expired])
    else if w.online then (t.(watchdog := None, retry := true, backoff := Doubled(w.backoff)), [StatusIs(Reconnecting)])
    else (t.(watchdog := None), [StatusIs(Reconnecting)])
  }

  function OnOffline(w: Watcher): (Watcher, seq<Call>) {
    (Closing(w.(online := false, retry := false)), [StatusIs(Reconnecting)])
  }

  function OnOnline(w: Watcher, creates: bool): (Watcher, seq<Call>) {
    if w.stopped then (w.(online := true), []) else Connect(Closing(w.(online := true)), creates)
  }

  function OnRetry(w: Watcher, creates: bool): (Watcher, seq<Call>) {
    if w.retry then Connect(w.(retry := false), creates) else (w, [])
  }

  function OnWatchdog(w: Watcher): (Watcher, seq<Call>) {
    if w.watchdog.Some? then (w.(watchdog := None, closing := w.closing + {w.watchdog.value}), []) else (w, [])
  }

  function Start(online: bool, creates: bool): (Watcher, seq<Call>) {
    Connect(Watcher(false, online, false, None, 0, {}, {}, false, None, FIRST_DELAY), creates)
  }

  /** The caller of watchReviewUpdates lets go. */
  function Stopped(w: Watcher): Watcher {
    Closing(w.(stopped := true, retry := false, watchdog := None))
  }

  datatype Event =
    | Message(socket: nat, frame: Frame)
    | Closed(socket: nat, policy: bool)
    | Offline
    | Online(creates: bool)
    | RetryFires(creates: bool)
    | WatchdogFires

  /** A socket delivers nothing after its close event. */
  function Next(w: Watcher, e: Event): (Watcher, seq<Call>) {
    match e
    case Message(n, f) => if n < w.made && n !in w.over then OnMessage(w, n, f) else (w, [])
    case Closed(n, policy) => if n < w.made && n !in w.over then OnClose(w, n, policy) else (w, [])
    case Offline => OnOffline(w)
    case Online(creates) => OnOnline(w, creates)
    case RetryFires(creates) => OnRetry(w, creates)
    case WatchdogFires => OnWatchdog(w)
  }

  function Run(w: Watcher, events: seq<Event>): (Watcher, seq<Call>)
    decreases |events|
  {
    if events == [] then (w, [])
    else
      var (t, calls) := Next(w, events[0]);
      var (u, later) := Run(t, events[1..]);
      (u, calls + later)
  }

  // ----- every way a connection can end leads on

  /** The newest socket will report its end: it is being closed already, or the watchdog will close it. */
  ghost predicate Attended(w: Watcher) {
    w.socket.Some? && w.socket.value !in w.over && (w.watchdog == w.socket || w.socket.value in w.closing)
  }

  ghost predicate Numbered(w: Watcher) {
    && (w.socket.Some? ==> w.socket.value == w.made - 1)
    && (w.socket.None? ==> w.made == 0)
    && (forall n :: n in w.over ==> n < w.made)
    && FIRST_DELAY <= w.backoff <= LAST_DELAY
  }

  ghost predicate Inv(w: Watcher) {
    Numbered(w) && (w.stopped || !w.online || w.manual || w.retry || Attended(w))
  }

  /** Connecting leaves nothing to wait for, whatever was due before. */
  lemma ConnectKeepsInv(w: Watcher, creates: bool)
    requires Numbered(w)
    ensures Inv(Connect(w, creates).0)
  {
  }

  lemma OnCloseKeepsInv(w: Watcher, n: nat, policy: bool)
    requires Inv(w) && n < w.made
    ensures Inv(OnClose(w, n, policy).0)
  {
  }

  lemma NextKeepsInv(w: Watcher, e: Event)
    requires Inv(w)
    ensures Inv(Next(w, e).0)
  {
    hide Connect, OnClose;
    match e
    case Closed(n, policy) => if n < w.made { OnCloseKeepsInv(w, n, policy); }
    case Online(creates) => ConnectKeepsInv(Closing(w.(online := true)), creates);
    case RetryFires(creates) => ConnectKeepsInv(w.(retry := false), creates);
    case _ =>
  }

  lemma {:induction false} RunKeepsInv(w: Watcher, events: seq<Event>)
    requires Inv(w)
    ensures Inv(Run(w, events).0)
    decreases |events|
  {
    if events == [] {
    } else {
      NextKeepsInv(w, events[0]);
      RunKeepsInv(Next(w, events[0]).0, events[1..]);
    }
  }

  /**
   No silence is final: while the browser is online and the session is alive, either a retry is due within
   30 seconds or the newest socket will be closed for silence if nothing comes, unless no socket can be made.
   */
  lemma SomethingIsAlwaysDue(online: bool, creates: bool, events: seq<Event>)
    ensures var w := Run(Start(online, creates).0, events).0;
            (!w.stopped && w.online && !w.manual ==> w.retry || Attended(w)) && w.backoff <= LAST_DELAY
  {
    RunKeepsInv(Start(online, creates).0, events);
  }

  /** Only the newest socket is heard, whatever sockets before it still deliver. */
  lemma OldSocketsAreSilent(online: bool, creates: bool, events: seq<Event>, n: nat, f: Frame, policy: bool)
    ensures var w := Run(Start(online, creates).0, events).0;
            n + 1 < w.made ==> Next(w, Message(n, f)).1 == [] && Next(w, Closed(n, policy)).1 == []
  {
    RunKeepsInv(Start(online, creates).0, events);
  }

  /**
   After an expiry no socket is opened, the list is never asked to reload again, and the expiry is reported
   once: all that is still reported is that the browser has gone offline.
   */
  lemma {:induction false} NothingChangesAfterExpiry(w: Watcher, events: seq<Event>)
    requires w.stopped
    ensures Changed !in Run(w, events).1 && Expired !in Run(w, events).1
    ensures Run(w, events).0.stopped && Run(w, events).0.made == w.made
    ensures forall call :: call in Run(w, events).1 ==> call == StatusIs(Reconnecting)
    decreases |events|
  {
    if events == [] {
    } else {
      SilentAfterExpiry(w, events[0]);
      hide Next;
      NothingChangesAfterExpiry(Next(w, events[0]).0, events[1..]);
    }
  }

  lemma SilentAfterExpiry(w: Watcher, e: Event)
    requires w.stopped
    ensures Next(w, e).0.stopped && Next(w, e).0.made == w.made
    ensures forall call :: call in Next(w, e).1 ==> call == StatusIs(Reconnecting)
  {
  }

  // ----- which callback an event causes

  function Count(calls: seq<Call>, c: Call): nat {
    multiset(calls)[c]
  }

  /**
   The list is asked to reload exactly once for a `ready` or `reviews-changed` frame on the heard socket,
   and by nothing else.
   */
  lemma ReloadsAreFrames(w: Watcher, e: Event)
    ensures Count(Next(w, e).1, Changed) ==
            if e.Message? && e.socket < w.made && e.socket !in w.over && Heard(w, e.socket)
               && (e.frame.Ready? || e.frame.ReviewsChanged?) then 1 else 0
  {
  }

  /** The end of the session is reported exactly once, when the heard socket is closed with code 1008. */
  lemma ExpiryIsPolicyClose(w: Watcher, e: Event)
    ensures Count(Next(w, e).1, Expired) ==
            if e.Closed? && e.policy && e.socket < w.made && e.socket !in w.over && Heard(w, e.socket) then 1 else 0
    ensures Next(w, e).0.stopped <==> w.stopped || Count(Next(w, e).1, Expired) == 1
  {
  }

  /** The status says connected exactly from a `ready` on, and manual exactly when no socket could be made. */
  lemma StatusesAreExact(w: Watcher, e: Event)
    ensures Count(Next(w, e).1, StatusIs(Connected)) ==
            if e.Message? && e.socket < w.made && e.socket !in w.over && Heard(w, e.socket) && e.frame.Ready? then 1
                else 0
    ensures Count(Next(w, e).1, StatusIs(Manual)) ==
            if ((e.Online? && !w.stopped) || (e.RetryFires? && w.retry && !w.stopped && w.online)) && !e.creates then 1
                else 0
    ensures Count(Next(w, e).1, StatusIs(Connecting)) ==
            if (e.Online? && !w.stopped) || (e.RetryFires? && w.retry && !w.stopped && w.online) then 1 else 0
    ensures Count(Next(w, e).1, StatusIs(Reconnecting)) ==
            if e.Offline? || (e.Closed? && !e.policy && e.socket < w.made && e.socket !in w.over && Heard(w, e.socket))
            then 1 else 0
  {
  }

  /**
   A socket is closed exactly for text that is not JSON, for its silence, and when the browser goes offline
   or comes back; every frame it is heard with starts its silence anew, and its end stops the watch.
   */
  lemma ClosesAreExact(w: Watcher, e: Event)
    ensures var t := Next(w, e).0;
            var heard := (e.Message? || e.Closed?) && e.socket < w.made && e.socket !in w.over && Heard(w, e.socket);
            && t.closing == w.closing +
               (if heard && e.Message? && e.frame.NotJson? then {e.socket}
                else if e.WatchdogFires? && w.watchdog.Some? then {w.watchdog.value}
                else if (e.Offline? || (e.Online? && !w.stopped)) && w.socket.Some? then {w.socket.value}
                else {})
            && (heard ==> t.watchdog == if e.Message? then Some(e.socket) else None)
  {
  }

  // ----- how long a retry waits

  predicate Greets(w: Watcher, e: Event) {
    e.Message? && e.frame.Ready? && e.socket < w.made && e.socket !in w.over && Heard(w, e.socket)
  }

  predicate Misses(w: Watcher, e: Event) {
    e.Closed? && !e.policy && e.socket < w.made && e.socket !in w.over && Heard(w, e.socket) && w.online
  }

  /** How many times in a row the heard socket was lost without a `ready`, `misses` of them before these events. */
  function Missed(w: Watcher, misses: nat, events: seq<Event>): nat
    decreases |events|
  {
    if events == [] then misses
    else
      var now := if Greets(w, events[0]) then 0 else if Misses(w, events[0]) then misses + 1 else misses;
      Missed(Next(w, events[0]).0, now, events[1..])
  }

  /** One second, doubled for every loss, up to thirty seconds. */
  function Wait(misses: nat): (ms: nat)
    ensures 1000 <= ms <= 30000
  {
    if misses == 0 then 1000 else if Wait(misses - 1) >= 15000 then 30000 else 2 * Wait(misses - 1)
  }

  lemma WaitsAre(misses: nat)
    ensures Wait(0) == 1000 && Wait(1) == 2000 && Wait(2) == 4000 && Wait(3) == 8000 && Wait(4) == 16000
    ensures misses >= 5 ==> Wait(misses) == 30000
    decreases misses
  {
    if misses > 5 { WaitsAre(misses - 1); }
    assert Wait(5) == 30000;
  }

  /**
   Over every run the next retry waits for a time that only depends on how often the socket was lost since
   the last `ready`, whatever else happened.
   */
  lemma {:induction false} WaitsCountLosses(online: bool, creates: bool, events: seq<Event>)
    ensures var start := Start(online, creates).0;
            Run(start, events).0.backoff == Wait(Missed(start, 0, events))
  {
    LossesAdd(Start(online, creates).0, 0, events);
  }

  lemma {:induction false} LossesAdd(w: Watcher, misses: nat, events: seq<Event>)
    requires w.backoff == Wait(misses)
    ensures Run(w, events).0.backoff == Wait(Missed(w, misses, events))
    decreases |events|
  {
    if events != [] {
      LossStep(w, misses, events[0]);
      hide Next, Wait, Greets, Misses;
      var now := if Greets(w, events[0]) then 0 else if Misses(w, events[0]) then misses + 1 else misses;
      LossesAdd(Next(w, events[0]).0, now, events[1..]);
    }
  }

  lemma LossStep(w: Watcher, misses: nat, e: Event)
    requires w.backoff == Wait(misses)
    ensures Next(w, e).0.backoff == Wait(if Greets(w, e) then 0 else if Misses(w, e) then misses + 1 else misses)
  {
    assert Wait(misses + 1) == if Wait(misses) >= 15000 then 30000 else 2 * Wait(misses);
  }

  /** Any other event at most opens the next socket. */
  lemma OtherEventsConnect(w: Watcher, e: Event)
    requires !e.Message? && !e.Closed?
    ensures var t := Next(w, e).0;
            t.stopped == w.stopped
            && ((t.made == w.made && t.socket == w.socket)
                || (!w.stopped && t.made == w.made + 1 && t.socket == Some(w.made)))
    ensures Changed !in Next(w, e).1 && Expired !in Next(w, e).1
  {
  }

  // ----- the closures

  class ReviewWatcher {
    var stopped: bool
    var online: bool
    var manual: bool
    var socket: Option<nat>
    var made: nat
    var closing: set<nat>
    var over: set<nat>
    var retry: bool
    var watchdog: Option<nat>
    var backoff: nat

    ghost function View(): Watcher
      reads this
    {
      Watcher(stopped, online, manual, socket, made, closing, over, retry, watchdog, backoff)
    }

    constructor (isOnline: bool)
      ensures View() == Watcher(false, isOnline, false, None, 0, {}, {}, false, None, FIRST_DELAY)
    {
      stopped, online, manual, socket, made, closing, over, retry, watchdog, backoff := false, isOnline, false, None, 0,
          {}, {}, false, None, FIRST_DELAY;
    }

    method TryConnect(creates: bool) returns (calls: seq<Call>)
      modifies this
      ensures (View(), calls) == Connect(old(View()), creates)
    {
      if stopped || !online { return []; }
      retry := false;
      calls := [StatusIs(Connecting)];
      if !creates {
        manual := true;
        return [StatusIs(Connecting), StatusIs(Manual)];
      }
      manual := false;
      socket, made := Some(made), made + 1;
      watchdog := socket;
    }

    method Receive(current: nat, frame: Frame) returns (calls: seq<Call>)
      modifies this
      ensures (View(), calls) == OnMessage(old(View()), current, frame)
    {
      calls := [];
      if stopped || socket != Some(current) { return; }
      watchdog := Some(current);
      if frame.NotJson? {
        closing := closing + {current};
      } else if frame.Ready? {
        backoff := FIRST_DELAY;
        calls := [StatusIs(Connected), Changed];
      } else if frame.ReviewsChanged? {
        calls := [Changed];
      }
    }

    method Close(current: nat, policy: bool) returns (calls: seq<Call>)
      modifies this
      ensures (View(), calls) == OnClose(old(View()), current, policy)
    {
      over := over + {current};
      if stopped || socket != Some(current) { return []; }
      watchdog := None;
      if policy {
        stopped := true;
        return [Expired];
      }
      calls := [StatusIs(Reconnecting)];
      if online {
        retry := true;
        backoff := if backoff * 2 < LAST_DELAY then backoff * 2 else LAST_DELAY;
      }
    }

    method GoOffline() returns (calls: seq<Call>)
      modifies this
      ensures (View(), calls) == OnOffline(old(View()))
    {
      online, retry := false, false;
      if socket.Some? { closing := closing + {socket.value}; }
      calls := [StatusIs(Reconnecting)];
    }

    method GoOnline(creates: bool) returns (calls: seq<Call>)
      modifies this
      ensures (View(), calls) == OnOnline(old(View()), creates)
    {
      online := true;
      if stopped { return []; }
      if socket.Some? { closing := closing + {socket.value}; }
      calls := TryConnect(creates);
    }

    /** The function that watchReviewUpdates returns. */
    method Stop()
      modifies this
      ensures stopped && !retry && watchdog.None? && (socket.Some? ==> socket.value in closing)
      ensures View() == Stopped(old(View()))
    {
      stopped, retry, watchdog := true, false, None;
      if socket.Some? { closing := closing + {socket.value}; }
    }
  }
}

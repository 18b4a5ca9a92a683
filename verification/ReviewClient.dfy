/**
 The review workspace of the web client (client/src/ReviewWorkspace.tsx:55-113 and 139-235): the
 variables that decide which list of reviews is shown, and the callbacks that change them. A callback
 runs to completion between two awaits, so each one is a single function on the client's state.
 */
module ReviewClient {
  import opened Wrappers
  import opened ReviewStore

  type Reviews = seq<Review>

  /**
   `inFlight` holds the live reads whose promise has not settled, with the value of `foreground` when each
   was started. `drainDue` is set while the effect that follows the end of an operation has not run.
   */
  datatype Client = Client(
    shown: Reviews,
    dirty: bool,
    latest: nat,
    foreground: nat,
    working: bool,
    drainDue: bool,
    inFlight: map<nat, nat>)

  /** The client just after its session is set: the first list is being loaded in the foreground. */
  const FIRST := Client([], false, 0, 1, true, false, map[])

  /** Each invalidation replaces the previous read; while an operation runs it waits. */
  function Drain(c: Client): Client {
    if !c.dirty || c.working then c
    else c.(dirty := false, latest := c.latest + 1, inFlight := c.inFlight[c.latest + 1 := c.foreground])
  }

  function Changed(c: Client): Client {
    Drain(c.(dirty := true))
  }

  function Settled(c: Client, request: nat): Client {
    c.(inFlight := Without(c.inFlight, request))
  }

  /** A live read returns `next`. */
  function ReadOk(c: Client, request: nat, next: Reviews): Client
    requires request in c.inFlight
  {
    if request != c.latest then Settled(c, request)
    else if c.inFlight[request] != c.foreground then Changed(Settled(c, request))
    else Settled(c, request).(shown := next)
  }

  function BeginWork(c: Client): Client {
    c.(foreground := c.foreground + 1, working := true)
  }

  function EndWork(c: Client): Client {
    c.(foreground := c.foreground + 1, working := false, drainDue := true)
  }

  /** The effect on `busy`. */
  function WorkEnded(c: Client): Client {
    if c.drainDue then Drain(c.(drainDue := false)) else c
  }

  function Patched(shown: Reviews, updated: Review): (r: Reviews)
    ensures |r| == |shown|
    ensures forall i :: 0 <= i < |shown| ==> r[i] == if shown[i].id == updated.id then updated else shown[i]
  {
    seq(|shown|, i requires 0 <= i < |shown| => if shown[i].id == updated.id then updated else shown[i])
  }

  /** Invalidations that arrived while an operation ran are not forgotten. */
  ghost predicate WillDrain(c: Client) {
    c.dirty ==> c.working || c.drainDue
  }

  /** Requests are numbered from 1 in the order they are started, and none starts while an operation runs. */
  ghost predicate ReadsOk(c: Client) {
    forall n :: n in c.inFlight ==>
        n <= c.latest && c.inFlight[n] <= c.foreground && (c.working ==> c.inFlight[n] < c.foreground)
  }

  ghost predicate ClientOk(c: Client) {
    WillDrain(c) && ReadsOk(c)
  }

  /** At most one outstanding read can still change what is shown, and none can while an operation runs. */
  lemma OneReadCanApply(c: Client, m: nat, n: nat, list: Reviews, next: Reviews)
    requires ClientOk(c) && m in c.inFlight && n in c.inFlight && m != n
    ensures ReadOk(c, m, list).shown == c.shown || ReadOk(c, n, next).shown == c.shown
    ensures c.working ==> ReadOk(c, m, list).shown == c.shown
  {
  }

  /** Every callback keeps the invalidations that have not been served. */
  lemma CallbacksKeepOk(c: Client, request: nat, next: Reviews)
    requires ClientOk(c)
    ensures ClientOk(Changed(c)) && ClientOk(Settled(c, request)) && ClientOk(WorkEnded(c)) && ClientOk(EndWork(c))
        && ClientOk(BeginWork(c))
    ensures request in c.inFlight ==> ClientOk(ReadOk(c, request, next))
  {
    DrainKeepsOk(c.(dirty := true));
    DrainKeepsOk(c.(drainDue := false));
    DrainKeepsOk(Settled(c, request).(dirty := true));
    hide Drain;
  }

  lemma DrainKeepsOk(c: Client)
    requires ReadsOk(c)
    ensures ClientOk(Drain(c))
  {
  }

  /** The component's refs and state. A read's promise is known by its request number. */
  class Workspace {
    var shown: Reviews
    var dirty: bool
    var latest: nat
    var foreground: nat
    var working: bool
    var drainDue: bool
    var inFlight: map<nat, nat>

    ghost function View(): Client
      reads this
    {
      Client(shown, dirty, latest, foreground, working, drainDue, inFlight)
    }

    ghost predicate Valid()
      reads this
    {
      ClientOk(View())
    }

    constructor ()
      ensures View() == FIRST && Valid()
    {
      shown, dirty, latest, foreground, working, drainDue, inFlight := [], false, 0, 1, true, false, map[];
    }

    /** Returns the request that was started, if any. */
    method DrainNow() returns (started: Option<nat>)
      requires WillDrain(View().(drainDue := true)) && ReadsOk(View())
      modifies this
      ensures View() == Drain(old(View())) && Valid()
      ensures started.Some? <==> old(dirty && !working)
      ensures started.Some? ==> started.value == latest > old(latest) && !dirty && latest in inFlight
    {
      if !dirty || working { return None; }
      dirty := false;
      latest := latest + 1;
      inFlight := inFlight[latest := foreground];
      started := Some(latest);
    }

    method OnChanged() returns (started: Option<nat>)
      requires Valid()
      modifies this
      ensures Valid() && View() == Changed(old(View()))
      ensures dirty || (started.Some? && started.value == latest)
    {
      dirty := true;
      started := DrainNow();
    }

    /** The two ways a live read's await ends, after which the newest request's result is considered. */
    method OnRead(request: nat, result: Option<Reviews>) returns (reported: bool)
      requires Valid() && request in inFlight
      modifies this
      ensures Valid()
      ensures View() == if result.Some? then ReadOk(old(View()), request, result.value)
          else Settled(old(View()), request)
      ensures reported <==> result.None? && request == old(latest) && old(inFlight)[request] == old(foreground)
    {
      var begun := inFlight[request];
      inFlight := Without(inFlight, request);
      reported := false;
      if result.Some? {
        if request != latest { return; }
        if begun != foreground {
          dirty := true;
          var again := DrainNow();
          return;
        }
        shown := result.value;
      } else if request == latest && begun == foreground {
        reported := true;
      }
    }

    method SetWorking(value: bool)
      requires Valid()
      modifies this
      ensures Valid() && View() == if value then BeginWork(old(View())) else EndWork(old(View()))
    {
      foreground := foreground + 1;
      working := value;
      if !value { drainDue := true; }
    }

    method OnWorkEnded() returns (started: Option<nat>)
      requires Valid()
      modifies this
      ensures Valid() && View() == WorkEnded(old(View()))
      ensures dirty ==> working
    {
      started := None;
      if drainDue {
        drainDue := false;
        started := DrainNow();
      }
    }

    /** The end of submit: the new review is shown first, or an error was reported. */
    method SubmitEnds(answer: Option<Review>)
      requires Valid()
      modifies this
      ensures Valid()
      ensures View() == EndWork(if answer.Some? then old(View()).(shown := [answer.value] + old(shown))
          else old(View()))
    {
      if answer.Some? { shown := [answer.value] + shown; }
      SetWorking(false);
    }

    method DecideEnds(answer: Option<Review>)
      requires Valid()
      modifies this
      ensures Valid()
      ensures View() == EndWork(if answer.Some? then old(View()).(shown := Patched(old(shown), answer.value))
          else old(View()))
    {
      if answer.Some? { shown := Patched(shown, answer.value); }
      SetWorking(false);
    }

    /** The end of refresh, of the first load and of the load after a 409. */
    method LoadEnds(answer: Option<Reviews>)
      requires Valid()
      modifies this
      ensures Valid()
      ensures View() == EndWork(if answer.Some? then old(View()).(shown := answer.value) else old(View()))
    {
      if answer.Some? { shown := answer.value; }
      SetWorking(false);
    }
  }
}

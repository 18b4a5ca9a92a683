/**
 The subscribers of review notifications (coordinator-dotnet/Services/ReviewUpdates.cs:8-49) and the
 loop that sends them over one socket (coordinator-dotnet/Controllers/ReviewLiveController.cs:47-83),
 proved to take the server steps of module ReviewLive.
 */
module ReviewHub {
  import opened Wrappers
  import opened ReviewTable
  import Machine = ReviewLive

  /** `token` is the subscriber's channel, which holds at most one element. */
  datatype Subscription = Subscription(actor: Actor, authorization: string, token: bool)

  const CAPACITY := 128

  type Subscribers = map<nat, Subscription>

  function Told(s: Subscription, researcherId: string): Subscription {
    if Concerns(s.actor, researcherId) then s.(token := true) else s
  }

  function Announced(subscribers: Subscribers, researcherId: string): Subscribers {
    map id | id in subscribers :: Told(subscribers[id], researcherId)
  }

  function Woken(subscribers: Subscribers, authorization: string): Subscribers {
    map id | id in subscribers ::
      if subscribers[id].authorization == authorization then subscribers[id].(token := true) else subscribers[id]
  }

  class ReviewUpdates {
    var subscribers: Subscribers
    var nextId: nat

    ghost predicate Valid()
      reads this
    {
      |subscribers| <= CAPACITY && forall id :: id in subscribers ==> id < nextId
    }

    constructor ()
      ensures Valid() && subscribers == map[]
    {
      subscribers, nextId := map[], 0;
    }

    /** None stands for the 429 answer. */
    method Subscribe(actor: Actor, authorization: string) returns (id: Option<nat>)
      requires Valid()
      modifies this
      ensures Valid()
      ensures id.None? <==> |old(subscribers)| >= 128
      ensures id.None? ==> subscribers == old(subscribers)
      ensures id.Some? ==>
          id.value !in old(subscribers) && subscribers == old(subscribers)[id.value := Subscription(actor,
          authorization, false)]
    {
      if |subscribers| >= CAPACITY { return None; }
      id := Some(nextId);
      subscribers := subscribers[nextId := Subscription(actor, authorization, false)];
      nextId := nextId + 1;
    }

    method Dispose(id: nat)
      requires Valid()
      modifies this
      ensures Valid() && subscribers == old(subscribers) - {id}
    {
      assert (subscribers - {id}).Keys <= subscribers.Keys;
      Fewer((subscribers - {id}).Keys, subscribers.Keys);
      subscribers := subscribers - {id};
    }

    /** Every subscriber the write concerns has a token afterwards, and nobody else's changes. */
    method Publish(researcherId: string)
      requires Valid()
      modifies this
      ensures Valid() && nextId == old(nextId) && subscribers == Announced(old(subscribers), researcherId)
      ensures forall id :: id in subscribers ==>
          (Concerns(subscribers[id].actor, researcherId) ==> subscribers[id].token)
          && (!Concerns(subscribers[id].actor, researcherId) ==> subscribers[id] == old(subscribers)[id])
    {
      var todo := subscribers.Keys;
      while todo != {}
        invariant todo <= subscribers.Keys == old(subscribers).Keys && nextId == old(nextId)
        invariant forall id :: id in subscribers ==>
          subscribers[id] == if id in todo then old(subscribers)[id] else Told(old(subscribers)[id], researcherId)
        decreases |todo|
      {
        var id :| id in todo;
        var s := subscribers[id];
        if Concerns(s.actor, researcherId) { subscribers := subscribers[id := s.(token := true)]; }
        todo := todo - {id};
      }
      SameSize(subscribers, old(subscribers));
    }

    method SessionRevoked(authorization: string)
      requires Valid()
      modifies this
      ensures Valid() && nextId == old(nextId) && subscribers == Woken(old(subscribers), authorization)
      ensures forall id :: id in subscribers ==>
          (subscribers[id].authorization == authorization ==> subscribers[id].token)
          && (subscribers[id].authorization != authorization ==> subscribers[id] == old(subscribers)[id])
    {
      var todo := subscribers.Keys;
      while todo != {}
        invariant todo <= subscribers.Keys == old(subscribers).Keys && nextId == old(nextId)
        invariant forall id :: id in subscribers ==>
          subscribers[id] == if id in todo then old(subscribers)[id] else Woken(old(subscribers), authorization)[id]
        decreases |todo|
      {
        var id :| id in todo;
        if subscribers[id].authorization
            == authorization { subscribers := subscribers[id := subscribers[id].(token := true)]; }
        todo := todo - {id};
      }
      SameSize(subscribers, old(subscribers));
    }

    /** Reads until the channel is empty. */
    method Drain(id: nat)
      requires Valid() && id in subscribers
      modifies this
      ensures Valid() && nextId == old(nextId) && subscribers
          == old(subscribers)[id := old(subscribers)[id].(token := false)]
    {
      while subscribers[id].token
        invariant Valid() && nextId == old(nextId) && subscribers.Keys == old(subscribers).Keys
        invariant subscribers == old(subscribers) || subscribers
            == old(subscribers)[id := old(subscribers)[id].(token := false)]
        decreases if subscribers[id].token then 1 else 0
      {
        subscribers := subscribers[id := subscribers[id].(token := false)];
      }
      assert subscribers == old(subscribers)[id := old(subscribers)[id].(token := false)];
    }
  }

  lemma Fewer<T>(a: set<T>, b: set<T>)
    requires a <= b
    ensures |a| <= |b|
  {
    assert b == a + (b - a);
  }

  lemma SameSize(a: Subscribers, b: Subscribers)
    requires a.Keys == b.Keys
    ensures |a| == |b|
  {
    assert |a.Keys| == |a| && |b.Keys| == |b|;
  }

  // ----- the sender loop

  /** What the loop's wait ends with; `meanwhile` lists the publications during its next await. */
  datatype Turn =
    | Incoming(close: bool)
    | Change(authorized: bool, meanwhile: seq<string>)
    | Tick(authorized: bool, meanwhile: seq<string>)

  function Heard(k: Machine.Socket, actor: Actor, meanwhile: seq<string>): Machine.Socket
    decreases |meanwhile|
  {
    if meanwhile == [] then k
    else Heard(if Concerns(actor, meanwhile[0]) then Machine.Signal(k) else k, actor, meanwhile[1..])
  }

  /** The steps of module ReviewLive that one turn of the loop takes. */
  function Turned(k: Machine.Socket, actor: Actor, turn: Turn): Machine.Socket {
    if k.phase.Gone? then k
    else match turn
    case Incoming(close) => if close then Machine.Sender(k, Machine.Drop(0), true) else Machine.Closing(k, true)
    case Change(authorized, meanwhile) =>
      Machine.Sender(Heard(Machine.Sender(k, Machine.Wake(0), authorized), actor, meanwhile), Machine.SendChanged(0),
          authorized)
    case Tick(authorized, meanwhile) => Heard(Machine.Sender(k, Machine.Beat(0), authorized), actor, meanwhile)
  }

  /** A client that closes is let go; one that sends anything else is turned away with the policy code. */
  lemma IncomingEnds(k: Machine.Socket, actor: Actor, close: bool)
    requires !k.phase.Gone?
    ensures var t := Turned(k, actor, Incoming(close));
            t.phase.Gone? && t.frames == k.frames + if close then [] else [Machine.CloseFrame(true)]
  {
  }

  function AllTurns(k: Machine.Socket, actor: Actor, turns: seq<Turn>): Machine.Socket
    decreases |turns|
  {
    if turns == [] then k else Turned(AllTurns(k, actor, turns[..|turns| - 1]), actor, turns[|turns| - 1])
  }

  ghost function SocketOf(hub: ReviewUpdates, id: nat, sending: bool, frames: seq<Machine.Frame>): Machine.Socket
    reads hub
  {
    if id in hub.subscribers then Machine.Socket(Machine.Live, hub.subscribers[id].token, sending, frames)
    else Machine.Socket(Machine.Gone, false, false, frames)
  }

  /** Others publish while the loop awaits. */
  method Await(hub: ReviewUpdates, id: nat, meanwhile: seq<string>, ghost sending: bool,
      ghost frames: seq<Machine.Frame>)
    requires hub.Valid() && id in hub.subscribers
    modifies hub
    ensures hub.Valid() && id in hub.subscribers && hub.subscribers[id].actor == old(hub.subscribers[id].actor)
    ensures SocketOf(hub, id, sending, frames) == Heard(old(SocketOf(hub, id, sending, frames)),
        old(hub.subscribers[id].actor), meanwhile)
    decreases |meanwhile|
  {
    if meanwhile != [] {
      hub.Publish(meanwhile[0]);
      Await(hub, id, meanwhile[1..], sending, frames);
    }
  }

  lemma {:induction false} GoneHearsNothing(k: Machine.Socket, actor: Actor, meanwhile: seq<string>)
    requires k.phase.Gone?
    ensures Heard(k, actor, meanwhile) == k
    decreases |meanwhile|
  {
    if meanwhile == [] {
    } else {
      GoneHearsNothing(k, actor, meanwhile[1..]);
    }
  }

  lemma {:induction false} GoneStays(k: Machine.Socket, actor: Actor, turns: seq<Turn>, i: nat)
    requires i <= |turns| && AllTurns(k, actor, turns[..i]).phase.Gone?
    ensures AllTurns(k, actor, turns) == AllTurns(k, actor, turns[..i])
    decreases |turns| - i
  {
    if i == |turns| {
      assert turns[..i] == turns;
    } else {
      assert turns[..i + 1][..i] == turns[..i];
      GoneStays(k, actor, turns, i + 1);
    }
  }

  /** The loop of Connect, from `ready` on: drain, then send, then wait again. */
  method SendUpdates(hub: ReviewUpdates, id: nat, turns: seq<Turn>) returns (frames: seq<Machine.Frame>)
    requires hub.Valid() && id in hub.subscribers
    modifies hub
    ensures hub.Valid()
    ensures SocketOf(hub, id, false, frames) == AllTurns(old(SocketOf(hub, id, false, [Machine.ReadyFrame])),
        old(hub.subscribers[id].actor), turns)
  {
    frames := [Machine.ReadyFrame];
    ghost var start := SocketOf(hub, id, false, frames);
    ghost var actor := hub.subscribers[id].actor;
    var i := 0;
    while i < |turns|
      invariant i <= |turns| && hub.Valid() && id in hub.subscribers && hub.subscribers[id].actor == actor
      invariant SocketOf(hub, id, false, frames) == AllTurns(start, actor, turns[..i])
    {
      var turn := turns[i];
      assert turns[..i + 1][..i] == turns[..i];
      i := i + 1;
      if turn.Incoming? {
        if !turn.close { frames := frames + [Machine.CloseFrame(true)]; }
        hub.Dispose(id);
        GoneStays(start, actor, turns, i);
        return;
      }
      if turn.Change? && !hub.subscribers[id].token {
        Await(hub, id, turn.meanwhile, false, frames);
      } else if !turn.authorized {
        GoneHearsNothing(Machine.Closing(SocketOf(hub, id, false, frames), true), actor, turn.meanwhile);
        frames := frames + [Machine.CloseFrame(true)];
        hub.Dispose(id);
        GoneStays(start, actor, turns, i);
        return;
      } else if turn.Change? {
        hub.Drain(id);
        Await(hub, id, turn.meanwhile, true, frames);
        frames := frames + [Machine.ChangedFrame];
      } else {
        frames := frames + [Machine.HeartbeatFrame];
        Await(hub, id, turn.meanwhile, false, frames);
      }
    }
    assert turns[..i] == turns;
  }
}

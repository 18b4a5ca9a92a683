/**
 Replacement of the gRPC channel (server/src/runner-client.ts:24-40,
 coordinator-dotnet/Services/RunnerGateway.cs:34-58): after an UNAVAILABLE result the channel is
 replaced, but only once no call is using it.
 */
module Channel {
  import opened Wrappers

  /** Channels are numbered in the order they are opened. */
  type ChannelId = nat

  /**
   `active`, `reconnect` and `closed` are the program's own counters and flags. `calls` records which
   channel each call in flight uses, `shut` the channels closed so far, `failed` those on which a
   call ended UNAVAILABLE.
   */
  datatype State = State(
    channel: ChannelId,
    active: int,
    reconnect: bool,
    closed: bool,
    calls: map<nat, ChannelId>,
    shut: set<ChannelId>,
    failed: set<ChannelId>)

  datatype Action = Start(call: nat) | Finish(call: nat, unavailable: bool) | Close

  const INITIAL := State(0, 0, false, false, map[], {}, {})

  function Ended(s: State, call: nat, unavailable: bool): State
    requires call in s.calls
  {
    s.(active := s.active - 1,
       reconnect := s.reconnect || unavailable,
       calls := Without(s.calls, call),
       failed := if unavailable then s.failed + {s.calls[call]} else s.failed)
  }

  function Replaced(s: State): State {
    s.(shut := s.shut + {s.channel}, channel := s.channel + 1, reconnect := false)
  }

  function Next(s: State, a: Action): State {
    match a
    case Start(call) =>
      if s.closed || call in s.calls then s else s.(active := s.active + 1, calls := s.calls[call := s.channel])
    case Finish(call, unavailable) =>
      if call !in s.calls then s
      else
        var t := Ended(s, call, unavailable);
        if t.active == 0 && t.reconnect && !t.closed then Replaced(t) else t
    case Close => s.(closed := true, shut := s.shut + {s.channel})
  }

  function Run(s: State, actions: seq<Action>): State
    decreases |actions|
  {
    if actions == [] then s else Next(Run(s, actions[..|actions| - 1]), actions[|actions| - 1])
  }

  ghost predicate Inv(s: State) {
    && s.active == |s.calls|
    && (forall c :: c in s.calls ==> s.calls[c] == s.channel)
    && (forall n :: n in s.shut || n in s.failed ==> n <= s.channel)
    && (!s.closed ==> s.channel !in s.shut)
    && (s.channel in s.failed <==> s.reconnect)
    && (!s.closed && s.reconnect ==> s.active > 0)
  }

  lemma RemovedCall(calls: map<nat, ChannelId>, call: nat)
    requires call in calls
    ensures |Without(calls, call)| == |calls| - 1
  {
    var rest := Without(calls, call);
    assert rest.Keys == calls.Keys - {call};
    assert |rest.Keys| == |rest| && |calls.Keys| == |calls|;
  }

  lemma NextKeepsInv(s: State, a: Action)
    requires Inv(s)
    ensures Inv(Next(s, a))
  {
    match a
    case Start(call) =>
      if !s.closed && call !in s.calls {
        var calls := s.calls[call := s.channel];
        assert calls.Keys == s.calls.Keys + {call};
        assert |calls| == |calls.Keys| && |s.calls| == |s.calls.Keys|;
      }
    case Finish(call, unavailable) =>
      if call in s.calls {
        RemovedCall(s.calls, call);
        var t := Ended(s, call, unavailable);
        assert t.active == |t.calls| && (|t.calls| == 0 ==> t.calls == map[]);
        assert s.calls[call] == s.channel;
      }
    case Close =>
  }

  lemma {:induction false} RunKeepsInv(actions: seq<Action>)
    ensures Inv(Run(INITIAL, actions))
    decreases |actions|
  {
    if actions != [] {
      RunKeepsInv(actions[..|actions| - 1]);
      NextKeepsInv(Run(INITIAL, actions[..|actions| - 1]), actions[|actions| - 1]);
    }
  }

  /**
   In every reachable state the counter counts the calls in flight, they all use the current channel,
   and that channel is open unless the connection was closed explicitly.
   */
  lemma CallsUseTheOpenChannel(actions: seq<Action>)
    ensures var s := Run(INITIAL, actions);
            && s.active == |s.calls|
            && (forall c :: c in s.calls ==> s.calls[c] == s.channel)
            && (!s.closed ==> forall c :: c in s.calls ==> s.calls[c] !in s.shut)
  {
    RunKeepsInv(actions);
  }

  /** Only an explicit close ever shuts a channel that some call is still using. */
  lemma NeverShutUnderACall(actions: seq<Action>, a: Action, call: nat)
    requires var s := Run(INITIAL, actions);
             call in s.calls && s.calls[call] !in s.shut && s.calls[call] in Next(s, a).shut && call in Next(s, a).calls
    ensures a == Close
  {
    RunKeepsInv(actions);
    NextKeepsInv(Run(INITIAL, actions), a);
  }

  /** A call that starts from idle never uses a channel on which any call was UNAVAILABLE. */
  lemma IdleCallUsesHealthyChannel(actions: seq<Action>, call: nat)
    requires var s := Run(INITIAL, actions); s.active == 0 && !s.closed
    ensures var s := Run(INITIAL, actions);
            var t := Next(s, Start(call));
            call in t.calls && t.calls[call] !in t.failed && t.calls[call] !in t.shut
  {
    RunKeepsInv(actions);
    var s := Run(INITIAL, actions);
    assert s.calls == map[];
  }

  /**
   A channel is replaced if and only if the last call in flight ends while the connection is open and some
   call on that channel was UNAVAILABLE; its successor is new.
   */
  lemma OnlyFailedChannelsAreReplaced(actions: seq<Action>, a: Action)
    ensures var s := Run(INITIAL, actions);
            var t := Next(s, a);
            && (t.channel != s.channel <==>
                  a.Finish? && a.call in s.calls && s.calls.Keys == {a.call} && !s.closed
                  && (a.unavailable || s.channel in s.failed))
            && (t.channel != s.channel ==> s.channel in t.shut && t.channel !in t.shut && t.channel !in t.failed)
  {
    RunKeepsInv(actions);
    var s := Run(INITIAL, actions);
    NextKeepsInv(s, a);
    if a.Finish? && a.call in s.calls {
      RemovedCall(s.calls, a.call);
      assert Without(s.calls, a.call).Keys == s.calls.Keys - {a.call};
      var rest := Without(s.calls, a.call);
      assert |rest| == 0 <==> rest == map[];
      assert rest == map[] <==> rest.Keys == {};
      assert s.calls.Keys == {a.call} <==> rest.Keys == {};
    }
  }

  /** The connection object: `channel` stands for the client stub. */
  class Connection {
    var channel: ChannelId
    var activeCalls: int
    var reconnectWhenIdle: bool
    var closed: bool
    ghost var calls: map<nat, ChannelId>
    ghost var shut: set<ChannelId>
    ghost var failed: set<ChannelId>

    ghost function View(): State
      reads this
    {
      State(channel, activeCalls, reconnectWhenIdle, closed, calls, shut, failed)
    }

    ghost predicate Valid()
      reads this
    {
      Inv(View())
    }

    constructor ()
      ensures View() == INITIAL && Valid()
    {
      channel, activeCalls, reconnectWhenIdle, closed := 0, 0, false, false;
      calls, shut, failed := map[], {}, {};
    }

    /** The part of call() before invoke: the channel the call is made on, unless the connection is closed. */
    method Start(call: nat) returns (connection: Option<ChannelId>)
      requires Valid() && call !in calls
      modifies this
      ensures Valid() && View() == Next(old(View()), Action.Start(call))
      ensures connection == if old(closed) then None else Some(channel)
      ensures connection.Some? ==> connection.value !in shut
    {
      NextKeepsInv(View(), Action.Start(call));
      if closed { return None; }
      activeCalls := activeCalls + 1;
      calls := calls[call := channel];
      connection := Some(channel);
    }

    /** The callback of invoke. */
    method Finish(ghost call: nat, unavailable: bool)
      requires Valid() && call in calls
      modifies this
      ensures Valid() && View() == Next(old(View()), Action.Finish(call, unavailable))
    {
      NextKeepsInv(View(), Action.Finish(call, unavailable));
      if unavailable {
        reconnectWhenIdle := true;
        failed := failed + {calls[call]};
      }
      activeCalls := activeCalls - 1;
      calls := Without(calls, call);
      if activeCalls == 0 && reconnectWhenIdle && !closed {
        shut := shut + {channel};
        channel := channel + 1;
        reconnectWhenIdle := false;
      }
    }

    method Close()
      requires Valid()
      modifies this
      ensures Valid() && View() == Next(old(View()), Action.Close)
    {
      NextKeepsInv(View(), Action.Close);
      closed := true;
      shut := shut + {channel};
    }
  }
}

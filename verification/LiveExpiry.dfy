/**
 What a session without authorization still gets (coordinator-dotnet/Controllers/ReviewLiveController.cs:49-83,
 coordinator-dotnet/Services/ReviewService.cs:34-46): nothing beyond the frames whose check had passed, and then
 the frame that ends it.
 */
module LiveExpiry {
  import opened Wrappers
  import opened ReviewTable
  import opened ReviewClient
  import opened ReviewLive
  import LiveConvergence

  // ----- nothing new is sent

  /** The frames in transit that carry something other than the end. */
  function Carried(frames: seq<Frame>): nat {
    if frames == [] then 0 else Carried(frames[..|frames| - 1]) + if frames[|frames| - 1].CloseFrame? then 0 else 1
  }

  /** A frame whose check has passed but which is not sent yet: the `ready` of a subscriber, or a drained change. */
  function Cleared(k: Socket): nat {
    (if k.phase.Subscribed? then 1 else 0) + if k.sending then 1 else 0
  }

  function Owed(s: State, n: nat): nat {
    if n in s.sockets then Carried(s.sockets[n].frames) + Cleared(s.sockets[n]) else 0
  }

  lemma CarriedLast(frames: seq<Frame>, f: Frame)
    ensures Carried(frames + [f]) == Carried(frames) + if f.CloseFrame? then 0 else 1
  {
    assert (frames + [f])[..|frames|] == frames;
  }

  lemma {:induction false} CarriedRest(frames: seq<Frame>)
    requires frames != []
    ensures Carried(frames[1..]) <= Carried(frames)
    decreases |frames|
  {
    if |frames| > 1 {
      CarriedRest(frames[..|frames| - 1]);
      assert frames[1..][..|frames| - 2] == frames[..|frames| - 1][1..];
    }
  }

  lemma SenderOwesLess(k: Socket, a: Action)
    ensures var t := Sender(k, a, false);
            Carried(t.frames) + Cleared(t) <= Carried(k.frames) + Cleared(k)
  {
    CarriedLast(k.frames, ReadyFrame);
    CarriedLast(k.frames, ChangedFrame);
    CarriedLast(k.frames, CloseFrame(true));
    CarriedLast(k.frames, CloseFrame(false));
    hide Carried;
  }

  predicate Sends(a: Action) {
    a.Subscribe? || a.TurnAway? || a.SendReady? || a.Wake? || a.SendChanged? || a.Beat? || a.Drop?
  }

  lemma SendActs(s: State, a: Action)
    requires Sends(a)
    ensures Act(s, a) == ServerStep(s, a.socket, a)
  {
    hide ServerStep;
  }

  lemma ServerOwesLess(s: State, a: Action, n: nat)
    requires !s.authorized && Sends(a)
    ensures !Act(s, a).authorized && Owed(Act(s, a), n) <= Owed(s, n)
  {
    hide Carried, Cleared, Sender, Act, Sends;
    SendActs(s, a);
    if n in s.sockets { SenderOwesLess(s.sockets[n], a); }
  }

  /** A callback leaves the sockets and the session as they are. */
  lemma CallbackKeeps(s: State)
    ensures var t := OnChanged(s);
            t.sockets == s.sockets && t.current == s.current && t.ended == s.ended && t.authorized == s.authorized
  {
    hide Changed, NewStamp, V;
  }

  function Taken(s: State, n: nat): State
    requires n in s.sockets && s.sockets[n].frames != []
  {
    s.(sockets := s.sockets[n := s.sockets[n].(frames := s.sockets[n].frames[1..])])
  }

  lemma ReceiveOwesLess(s: State, m: nat, n: nat)
    requires !s.authorized
    ensures !ReceiveFrame(s, m).authorized && Owed(ReceiveFrame(s, m), n) <= Owed(s, n)
  {
    hide Carried, OnChanged;
    if n in s.sockets && s.sockets[n].frames != [] { CarriedRest(s.sockets[n].frames); }
    if m in s.sockets && s.sockets[m].frames != [] { CallbackKeeps(Taken(s, m)); }
  }

  lemma LinkOwesLess(s: State, a: Action, n: nat)
    requires !s.authorized && (a.Connect? || a.Lose? || a.Revoke? || a.Expire? || a.Publish? || a.Leave?)
    ensures !Act(s, a).authorized && Owed(Act(s, a), n) <= Owed(s, n)
  {
    assert Carried([]) == 0;
    hide Carried, Concerns;
  }

  lemma WriteOwesLess(s: State, a: Action, n: nat)
    requires !s.authorized && (a.WriteBySomeone? || a.ServeWrite?)
    ensures !Act(s, a).authorized && Owed(Act(s, a), n) == Owed(s, n)
  {
    hide WriteOk, Applied, Top, RowOf, Carried;
  }

  lemma ClientOwesSame(s: State, a: Action, n: nat)
    requires !s.authorized && !Sends(a) && !a.Receive? && !a.WriteBySomeone? && !a.ServeWrite?
    requires !(a.Connect? || a.Lose? || a.Revoke? || a.Expire? || a.Publish? || a.Leave?)
    ensures !Act(s, a).authorized && Owed(Act(s, a), n) == Owed(s, n)
  {
    StillUnauthorized(s, a);
    hide Act;
    if a.Serve? || a.Answer? || a.Fail? || a.Effect? {
      LiveConvergence.ReadSameServer(s, a);
    } else {
      LiveConvergence.OperationSameServer(s, a);
    }
  }

  lemma StillUnauthorized(s: State, a: Action)
    requires !s.authorized && (a.StartLoad? || a.StartWrite? || a.ServeLoad? || a.Refused? || a.TaskFails?
        || a.TaskDone?
      || a.Serve? || a.Answer? || a.Fail? || a.Effect?)
    ensures !Act(s, a).authorized
  {
    hide Scoped, TableAt, Received, V, ReadOk, Applies, NewStamp, Settled, Patched, Answered, AlreadyDecided, Top,
      WorkEnded, BeginWork, EndWork;
  }

  lemma StepOwesLess(s: State, a: Action, n: nat)
    requires !s.authorized
    ensures !Next(s, a).authorized && Owed(Next(s, a), n) <= Owed(s, n)
  {
    hide Act, Sends, Carried, Cleared;
    if s.ended {
    } else if Sends(a) {
      ServerOwesLess(s, a, n);
    } else if a.Receive? {
      ReceiveActs(s, a.socket);
      ReceiveOwesLess(s, a.socket, n);
    } else if a.WriteBySomeone? || a.ServeWrite? {
      WriteOwesLess(s, a, n);
    } else if a.Connect? || a.Lose? || a.Revoke? || a.Expire? || a.Publish? || a.Leave? {
      LinkOwesLess(s, a, n);
    } else {
      ClientOwesSame(s, a, n);
    }
  }

  lemma ReceiveActs(s: State, n: nat)
    ensures Act(s, Receive(n)) == ReceiveFrame(s, n)
  {
    hide ReceiveFrame;
  }

  /**
   Once a session has lost its authorization no socket gets anything but what had passed its check before:
   at most that many frames other than the end are still to come, and a socket opened later gets none.
   */
  lemma {:induction false} NothingNewWithoutSession(s: State, actions: seq<Action>, n: nat)
    requires !s.authorized
    ensures Owed(Run(s, actions), n) <= Owed(s, n)
    ensures n !in s.sockets ==> Owed(Run(s, actions), n) == 0
    decreases |actions|
  {
    hide Next;
    if actions != [] {
      StepOwesLess(s, actions[0], n);
      NothingNewWithoutSession(Next(s, actions[0]), actions[1..], n);
    }
  }

  // ----- the end is sent

  /** A socket whose server end is still there has not been sent the end. */
  ghost predicate OpenEnds(s: State) {
    forall n :: n in s.sockets && !s.sockets[n].phase.Gone? ==> NoClose(s.sockets[n].frames)
  }

  predicate NoClose(frames: seq<Frame>) {
    forall i :: 0 <= i < |frames| ==> !frames[i].CloseFrame?
  }

  lemma ServerKeepsOpen(s: State, a: Action)
    requires OpenEnds(s) && Sends(a)
    ensures OpenEnds(Act(s, a))
  {
    hide Act, Sends;
    SendActs(s, a);
  }

  lemma ReceiveKeepsOpen(s: State, n: nat)
    requires OpenEnds(s)
    ensures OpenEnds(ReceiveFrame(s, n))
  {
    hide OnChanged;
    if n in s.sockets && s.sockets[n].frames != [] { CallbackKeeps(Taken(s, n)); }
  }

  lemma OthersKeepOpen(s: State, a: Action)
    requires OpenEnds(s) && !Sends(a) && !a.Receive?
    ensures OpenEnds(Act(s, a))
  {
    if a.WriteBySomeone? || a.ServeWrite? {
      hide WriteOk, Applied, Top, RowOf, NoClose;
    } else if a.Connect? || a.Lose? || a.Revoke? || a.Expire? || a.Publish? || a.Leave? {
      assert NoClose([]);
      hide NoClose, Concerns;
    } else {
      hide Act, NoClose;
      if a.Serve? || a.Answer? || a.Fail? || a.Effect? {
        LiveConvergence.ReadSameServer(s, a);
      } else {
        LiveConvergence.OperationSameServer(s, a);
      }
    }
  }

  lemma NextKeepsOpen(s: State, a: Action)
    requires OpenEnds(s)
    ensures OpenEnds(Next(s, a))
  {
    hide Act, Sends;
    if Sends(a) {
      ServerKeepsOpen(s, a);
    } else if a.Receive? {
      ReceiveActs(s, a.socket);
      ReceiveKeepsOpen(s, a.socket);
    } else {
      OthersKeepOpen(s, a);
    }
  }

  lemma {:induction false} RunKeepsOpen(s: State, actions: seq<Action>)
    requires OpenEnds(s)
    ensures OpenEnds(Run(s, actions))
    decreases |actions|
  {
    hide Next, OpenEnds;
    if actions != [] {
      NextKeepsOpen(s, actions[0]);
      RunKeepsOpen(Next(s, actions[0]), actions[1..]);
    }
  }

  function Deliveries(n: nat, count: nat): seq<Action> {
    if count == 0 then [] else [Receive(n)] + Deliveries(n, count - 1)
  }

  /** The end of the session is the last frame in transit on the socket the client hears. */
  ghost predicate Ending(s: State, n: nat) {
    !s.ended && s.current == Some(n) && n in s.sockets && s.sockets[n].frames != []
    && s.sockets[n].frames[|s.sockets[n].frames| - 1] == CloseFrame(true)
    && NoClose(s.sockets[n].frames[..|s.sockets[n].frames| - 1])
  }

  lemma DeliversOne(s: State, n: nat)
    requires Ending(s, n)
    ensures var (frames, t) := (s.sockets[n].frames, Next(s, Receive(n)));
            if |frames| == 1 then t.ended else Ending(t, n) && t.sockets[n].frames == frames[1..]
  {
    hide OnChanged;
    CallbackKeeps(Taken(s, n));
    var frames := s.sockets[n].frames;
    if |frames| > 1 { assert frames[1..][..|frames| - 2] == frames[..|frames| - 1][1..]; }
  }

  lemma {:induction false} DeliversAll(s: State, n: nat)
    requires Ending(s, n)
    ensures Run(s, Deliveries(n, |s.sockets[n].frames|)).ended
    decreases |s.sockets[n].frames|
  {
    var frames := s.sockets[n].frames;
    DeliversOne(s, n);
    hide Next, Ending;
    assert Deliveries(n, |frames|)[1..] == Deliveries(n, |frames| - 1);
    if |frames| > 1 {
      DeliversAll(Next(s, Receive(n)), n);
    } else {
      EndedStays(Next(s, Receive(n)));
    }
  }

  lemma EndedStays(s: State)
    ensures Run(s, Deliveries(0, 0)) == s
  {
  }

  /** The server's next turn on this socket ends it. */
  lemma TurnEnds(s: State, turn: Action, n: nat)
    requires OpenEnds(s) && !s.ended && !s.authorized && s.current == Some(n) && n in s.sockets
    requires s.sockets[n].phase.Live? && !s.sockets[n].sending
    requires turn == Beat(n) || (turn == Wake(n) && s.sockets[n].token)
    ensures Ending(Next(s, turn), n)
    ensures |Next(s, turn).sockets[n].frames| == |s.sockets[n].frames| + 1
  {
    var frames := s.sockets[n].frames;
    assert (frames + [CloseFrame(true)])[..|frames|] == frames;
  }

  /**
   Revocation and expiry reach the client. From every moment of every session whose socket is past `ready`
   and between two frames: when it is revoked the wake-up that follows, and when it has expired the next
   heartbeat, send the end, and the client stops once the frames in transit have arrived.
   */
  lemma RevokedSessionEnds(me: Actor, table: Table, before: seq<Action>, n: nat)
    requires var s := Run(Initial(me, table), before);
             !s.ended && s.current == Some(n) && n in s.sockets && s.sockets[n].phase.Live? && !s.sockets[n].sending
    ensures var s := Run(Initial(me, table), before);
            var rest := Deliveries(n, |s.sockets[n].frames| + 1);
            Run(s, [Revoke, Wake(n)] + rest).ended && Run(s, [Expire, Beat(n)] + rest).ended
  {
    assert OpenEnds(Initial(me, table));
    hide Next, Ending, OpenEnds, Run, Initial;
    RunKeepsOpen(Initial(me, table), before);
    var s := Run(Initial(me, table), before);
    LosesSession(s, n);
    NextKeepsOpen(s, Revoke);
    NextKeepsOpen(s, Expire);
    Ends(s, Revoke, Wake(n), n);
    Ends(s, Expire, Beat(n), n);
  }

  lemma LosesSession(s: State, n: nat)
    requires !s.ended && n in s.sockets && s.sockets[n].phase.Live?
    ensures forall a :: a == Revoke || a == Expire ==>
              var t := Next(s, a);
              !t.ended && !t.authorized && t.current == s.current && n in t.sockets && t.sockets[n].phase.Live?
              && t.sockets[n].sending == s.sockets[n].sending && t.sockets[n].frames == s.sockets[n].frames
              && (a == Revoke ==> t.sockets[n].token)
  {
  }

  lemma Ends(s: State, a: Action, turn: Action, n: nat)
    requires var t := Next(s, a);
             && OpenEnds(t) && !t.ended && !t.authorized && t.current == Some(n) && n in t.sockets
             && t.sockets[n].phase.Live? && !t.sockets[n].sending
             && (turn == Beat(n) || (turn == Wake(n) && t.sockets[n].token))
    ensures Run(s, [a, turn] + Deliveries(n, |Next(s, a).sockets[n].frames| + 1)).ended
  {
    hide Next, Ending, OpenEnds, Run;
    var t := Next(s, a);
    TurnEnds(t, turn, n);
    DeliversAll(Next(t, turn), n);
    RunPair(s, a, turn);
    LiveConvergence.RunTwice(s, [a, turn], Deliveries(n, |t.sockets[n].frames| + 1));
  }

  lemma RunPair(s: State, a: Action, b: Action)
    ensures Run(s, [a, b]) == Next(Next(s, a), b)
  {
    hide Next;
    assert [a, b][1..] == [b] && [b][1..] == [];
    assert Run(s, [a, b]) == Run(Next(s, a), [b]);
    LiveConvergence.RunOnce(Next(s, a), b);
  }
}

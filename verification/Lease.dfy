/**
 Ownership of the execution ledger: the guard file, the lease file and the process table
 (runner/src/store.ts). Every file-system call and the liveness probe is one atomic step, so
 any number of openers, crashes and unrelated processes interleave between any two of them.
 */
module Lease {
  import opened Wrappers

  type Pid = n: int | 0 < n witness 1

  /** Identity minted for one call of openExecutionStore; never minted twice. */
  type Owner = nat

  /** What a guard or lease file holds. A file is Blank between its creation and its first write. */
  datatype Text = Blank | Unreadable | InvalidPid | Record(pid: Pid, owner: Owner)

  /** The next call an opener makes. `ok` says whether the lease was written before the guard is removed. */
  datatype Pc =
    | CreateGuard
    | WriteGuard
    | CreateLease(attempt: nat)
    | WriteLease
    | ReadLease
    | Probe(previous: Text)
    | Reread(previous: Text)
    | UnlinkStale(previous: Text)
    | ReadGuard(ok: bool)
    | UnlinkGuard(ok: bool)
    | OpenDatabase
    | Recover
    | Open
    | ReadOwn
    | UnlinkOwn
    | Done
    | Dead

  datatype Agent = Agent(pid: Pid, pc: Pc)

  /** Both files, every opener so far, the owners ever minted and the live processes. */
  datatype State = State(
    guard: Option<Text>,
    lease: Option<Text>,
    agents: map<Owner, Agent>,
    minted: set<Owner>,
    live: set<Pid>)

  /** How much of its text a failed write leaves; all of it when only closing the file failed. */
  datatype Left = Nothing | Part | Whole

  /**
   `Begin` calls openExecutionStore in a new or already live process; `Foreign` starts an unrelated
   process, which may reuse any dead process's id; `Step` makes an opener's next call; `Fault` makes
   that call raise an I/O error; `Close` ends an open ledger; `Crash` kills a process and every opener
   inside it.
   */
  datatype Action =
    | Begin(owner: Owner, pid: Pid)
    | Foreign(pid: Pid)
    | Crash(pid: Pid)
    | Step(owner: Owner)
    | Fault(owner: Owner, left: Left)
    | Close(owner: Owner)

  function Own(s: State, o: Owner): Text
    requires o in s.agents
  {
    Record(s.agents[o].pid, o)
  }

  predicate Alive(s: State, o: Owner) {
    o in s.agents && s.agents[o].pc != Dead
  }

  function At(s: State, o: Owner, pc: Pc): State
    requires o in s.agents
  {
    s.(agents := s.agents[o := s.agents[o].(pc := pc)])
  }

  function Next(s: State, a: Action): State {
    match a
    case Begin(o, pid) =>
      if o in s.minted then s
      else s.(agents := s.agents[o := Agent(pid, CreateGuard)], minted := s.minted + {o}, live := s.live + {pid})
    case Foreign(pid) => s.(live := s.live + {pid})
    case Crash(pid) => Kill(s, pid)
    case Step(o) => if Alive(s, o) then Advance(s, o) else s
    case Fault(o, left) => if Alive(s, o) then Fail(s, o, left) else s
    case Close(o) => if Alive(s, o) && s.agents[o].pc == Open then At(s, o, ReadOwn) else s
  }

  function Kill(s: State, pid: Pid): State {
    s.(live := s.live - {pid},
       agents := map o | o in s.agents :: if s.agents[o].pid == pid then s.agents[o].(pc := Dead) else s.agents[o])
  }

  /** The successful outcome of the opener's next call. */
  function Advance(s: State, o: Owner): State
    requires Alive(s, o)
  {
    match s.agents[o].pc
    case CreateGuard => if s.guard.Some? then At(s, o, Done) else At(s.(guard := Some(Blank)), o, WriteGuard)
    case WriteGuard => At(s.(guard := Some(Own(s, o))), o, CreateLease(0))
    case CreateLease(n) =>
      if s.lease.None? then At(s.(lease := Some(Blank)), o, WriteLease)
      else if n == 0 then At(s, o, ReadLease)
      else At(s, o, ReadGuard(false))
    case WriteLease => At(s.(lease := Some(Own(s, o))), o, ReadGuard(true))
    case ReadLease =>
      if s.lease.Some? && s.lease.value.Record? then At(s, o, Probe(s.lease.value)) else At(s, o, ReadGuard(false))
    case Probe(previous) =>
      if previous.Record? && previous.pid !in s.live then At(s, o, Reread(previous)) else At(s, o, ReadGuard(false))
    case Reread(previous) =>
      if s.lease == Some(previous) then At(s, o, UnlinkStale(previous)) else At(s, o, ReadGuard(false))
    case UnlinkStale(_) =>
      if s.lease.Some? then At(s.(lease := None), o, CreateLease(1)) else At(s, o, ReadGuard(false))
    case ReadGuard(ok) =>
      if s.guard == Some(Own(s, o)) then At(s, o, UnlinkGuard(ok))
      else if s.guard.None? then At(s, o, Done)
      else At(s, o, if ok then OpenDatabase else Done)
    case UnlinkGuard(ok) => At(s.(guard := None), o, if ok then OpenDatabase else Done)
    case OpenDatabase => At(s, o, Recover)
    case Recover => At(s, o, Open)
    case Open => s
    case ReadOwn => At(s, o, if s.lease == Some(Own(s, o)) then UnlinkOwn else Done)
    case UnlinkOwn => At(s.(lease := None), o, Done)
    case Done => s
    case Dead => s
  }

  /** What a write that fails leaves behind, unless it leaves nothing. */
  function Written(s: State, o: Owner, left: Left): Text
    requires o in s.agents
  {
    if left.Whole? then Own(s, o) else Unreadable
  }

  /** The outcome of the opener's next call raising an I/O error other than EEXIST or ESRCH. */
  function Fail(s: State, o: Owner, left: Left): State
    requires Alive(s, o)
  {
    match s.agents[o].pc
    case CreateGuard => At(s, o, Done)
    case WriteGuard => At(if left.Nothing? then s else s.(guard := Some(Written(s, o, left))), o, Done)
    case WriteLease => At(if left.Nothing? then s else s.(lease := Some(Written(s, o, left))), o, ReadGuard(false))
    case CreateLease(_) => At(s, o, ReadGuard(false))
    case ReadLease => At(s, o, ReadGuard(false))
    case Probe(_) => At(s, o, ReadGuard(false))
    case Reread(_) => At(s, o, ReadGuard(false))
    case UnlinkStale(_) => At(s, o, ReadGuard(false))
    case ReadGuard(_) => At(s, o, Done)
    case UnlinkGuard(_) => At(s, o, Done)
    case OpenDatabase => At(s, o, ReadOwn)
    case Recover => At(s, o, ReadOwn)
    case Open => s
    case ReadOwn => At(s, o, Done)
    case UnlinkOwn => At(s, o, Done)
    case Done => s
    case Dead => s
  }

  function Run(s: State, actions: seq<Action>): State
    decreases |actions|
  {
    if actions == [] then s else Next(Run(s, actions[..|actions| - 1]), actions[|actions| - 1])
  }

  /** No opener has started; a guard or lease left by earlier processes may already be there. */
  predicate Init(s: State) {
    && s.agents == map[]
    && (s.guard.Some? && s.guard.value.Record? ==> s.guard.value.owner in s.minted)
    && (s.lease.Some? && s.lease.value.Record? ==> s.lease.value.owner in s.minted)
  }

  // ----- the inductive invariant

  /** Between creating the guard file and removing it. */
  predicate Guarding(pc: Pc) {
    pc.WriteGuard? || pc.CreateLease? || pc.WriteLease? || pc.ReadLease? || pc.Probe? || pc.Reread? || pc.UnlinkStale?
    || pc.ReadGuard? || pc.UnlinkGuard?
  }

  /** From writing the lease to giving it up. */
  predicate Holding(pc: Pc) {
    (pc.ReadGuard? && pc.ok) || (pc.UnlinkGuard? && pc.ok) || pc.OpenDatabase? || pc.Recover? || pc.Open?
    || pc.ReadOwn? || pc.UnlinkOwn?
  }

  predicate Examining(pc: Pc) {
    pc.Probe? || pc.Reread? || pc.UnlinkStale?
  }

  ghost predicate Attributed(s: State, t: Text) {
    t.Record? ==> t.owner in s.minted && (t.owner in s.agents ==> s.agents[t.owner].pid == t.pid)
  }

  ghost predicate AgentInv(s: State, o: Owner)
    requires o in s.agents
  {
    var pc := s.agents[o].pc;
    && o in s.minted
    && (pc != Dead ==> s.agents[o].pid in s.live)
    && (Guarding(pc) ==> s.guard == Some(if pc.WriteGuard? then Blank else Own(s, o)))
    && (Holding(pc) ==> s.lease == Some(Own(s, o)))
    && (pc.WriteLease? ==> s.lease == Some(Blank))
    && (pc.CreateLease? ==> pc.attempt == 0 || (pc.attempt == 1 && s.lease.None?))
    && (Examining(pc) ==> pc.previous.Record? && Attributed(s, pc.previous))
    && (pc.Reread? || pc.UnlinkStale? ==> !Alive(s, pc.previous.owner))
    && (pc.UnlinkStale? ==> s.lease == Some(pc.previous))
  }

  ghost predicate Inv(s: State) {
    && (forall o :: o in s.agents ==> AgentInv(s, o))
    && (forall o, p :: o in s.agents && p in s.agents && Guarding(s.agents[o].pc) && Guarding(s.agents[p].pc) ==>
        o == p)
    && (s.lease.Some? ==> Attributed(s, s.lease.value))
  }

  /** One opener moves; `guard` and `lease` are the files it leaves behind. */
  lemma MoveKeepsInv(s: State, o: Owner, t: State, pc: Pc)
    requires Inv(s) && Alive(s, o) && pc != Dead
    requires t == At(s.(guard := t.guard, lease := t.lease), o, pc)
    requires AgentInv(t, o)
    requires t.guard != s.guard ==> Guarding(s.agents[o].pc) || s.guard.None?
    requires Guarding(pc) ==> Guarding(s.agents[o].pc) || s.guard.None?
    requires t.lease != s.lease ==> Guarding(s.agents[o].pc) || s.lease == Some(Own(s, o))
    requires t.lease != s.lease && s.lease.Some? && s.lease.value.Record? ==>
        s.lease == Some(Own(s, o)) || !Alive(s, s.lease.value.owner)
    requires t.lease.Some? && t.lease != s.lease ==> t.lease.value == Own(s, o) || !t.lease.value.Record?
    ensures Inv(t)
  {
    forall p | p in t.agents ensures AgentInv(t, p) {
      assert AgentInv(s, p);
    }
    assert AgentInv(s, o);
  }

  lemma StepAgentInv(s: State, o: Owner)
    requires Alive(s, o) && AgentInv(s, o)
    requires s.lease.Some? ==> Attributed(s, s.lease.value)
    requires forall p :: Alive(s, p) ==> s.agents[p].pid in s.live
    ensures AgentInv(Advance(s, o), o)
  {
  }

  lemma StepKeepsInv(s: State, o: Owner)
    requires Inv(s)
    ensures Inv(Next(s, Step(o)))
  {
    if Alive(s, o) && s.agents[o].pc != Open && s.agents[o].pc != Done {
      assert AgentInv(s, o);
      forall p | Alive(s, p) ensures s.agents[p].pid in s.live { assert AgentInv(s, p); }
      StepAgentInv(s, o);
      MoveKeepsInv(s, o, Advance(s, o), Advance(s, o).agents[o].pc);
    }
  }

  lemma FaultAgentInv(s: State, o: Owner, left: Left)
    requires Alive(s, o) && AgentInv(s, o)
    ensures AgentInv(Fail(s, o, left), o)
  {
  }

  lemma FaultKeepsInv(s: State, o: Owner, left: Left)
    requires Inv(s)
    ensures Inv(Next(s, Fault(o, left)))
  {
    if Alive(s, o) && s.agents[o].pc != Open && s.agents[o].pc != Done {
      assert AgentInv(s, o);
      FaultAgentInv(s, o, left);
      MoveKeepsInv(s, o, Fail(s, o, left), Fail(s, o, left).agents[o].pc);
    }
  }

  lemma KillKeepsInv(s: State, pid: Pid)
    requires Inv(s)
    ensures Inv(Kill(s, pid))
  {
    var t := Kill(s, pid);
    forall p | p in t.agents ensures AgentInv(t, p) {
      assert AgentInv(s, p);
    }
  }

  lemma BeginKeepsInv(s: State, o: Owner, pid: Pid)
    requires Inv(s)
    ensures Inv(Next(s, Begin(o, pid)))
  {
    var t := Next(s, Begin(o, pid));
    forall p | p in t.agents ensures AgentInv(t, p) {
      if p in s.agents { assert AgentInv(s, p); }
    }
  }

  lemma NextKeepsInv(s: State, a: Action)
    requires Inv(s)
    ensures Inv(Next(s, a))
  {
    match a
    case Begin(o, pid) => BeginKeepsInv(s, o, pid);
    case Foreign(pid) =>
      forall p | p in s.agents ensures AgentInv(Next(s, a), p) { assert AgentInv(s, p); }
    case Crash(pid) => KillKeepsInv(s, pid);
    case Step(o) => StepKeepsInv(s, o);
    case Fault(o, left) => FaultKeepsInv(s, o, left);
    case Close(o) =>
      if Alive(s, o) && s.agents[o].pc == Open {
        var t := Next(s, a);
        assert AgentInv(s, o);
        assert AgentInv(t, o);
        MoveKeepsInv(s, o, t, ReadOwn);
      }
  }

  lemma {:induction false} RunKeepsInv(s: State, actions: seq<Action>)
    requires Init(s)
    ensures Inv(Run(s, actions))
    decreases |actions|
  {
    if actions != [] {
      RunKeepsInv(s, actions[..|actions| - 1]);
      NextKeepsInv(Run(s, actions[..|actions| - 1]), actions[|actions| - 1]);
    }
  }

  // ----- what the lease protocol is for

  /** The ledger file is open, or about to be opened or let go, in this opener. */
  predicate HasLedger(s: State, o: Owner) {
    o in s.agents && Holding(s.agents[o].pc)
  }

  /** Over every run at most one opener has the ledger, and the lease on disk names it. */
  lemma MutualExclusion(s: State, actions: seq<Action>, o: Owner, p: Owner)
    requires Init(s)
    requires HasLedger(Run(s, actions), o) && HasLedger(Run(s, actions), p)
    ensures o == p && Run(s, actions).lease == Some(Own(Run(s, actions), o))
  {
    RunKeepsInv(s, actions);
    var t := Run(s, actions);
    assert AgentInv(t, o) && AgentInv(t, p);
  }

  /** Whenever a lease disappears, either its own opener let it go or that opener is already dead. */
  lemma LeaseRemovedOnlyByOwnerOrAfterDeath(s: State, actions: seq<Action>, a: Action)
    requires Init(s)
    requires Run(s, actions).lease.Some? && Run(s, actions).lease.value.Record?
    requires Next(Run(s, actions), a).lease != Run(s, actions).lease
    ensures var t := Run(s, actions);
            (a == Step(t.lease.value.owner) && Alive(t, t.lease.value.owner)) || !Alive(t, t.lease.value.owner)
  {
    RunKeepsInv(s, actions);
    var t := Run(s, actions);
    assert a.Step? || a.Fault?;
    assert AgentInv(t, a.owner);
  }

  predicate Moves(s: State, a: Action, o: Owner)
    requires o in s.agents
  {
    (a.Step? && a.owner == o) || (a.Fault? && a.owner == o) || (a.Close? && a.owner == o) || a == Crash(s.agents[o].pid)
  }

  lemma OthersLeaveAgent(s: State, a: Action, o: Owner)
    requires o in s.agents && o in s.minted && !Moves(s, a, o)
    ensures o in Next(s, a).agents && Next(s, a).agents[o] == s.agents[o]
  {
  }

  lemma HolderSteps(s: State, o: Owner)
    requires o in s.agents && AgentInv(s, o) && HasLedger(s, o)
    ensures HasLedger(Advance(s, o), o) || (s.agents[o].pc == UnlinkOwn && Advance(s, o).lease.None?)
  {
  }

  lemma HolderFails(s: State, o: Owner, left: Left)
    requires o in s.agents && AgentInv(s, o) && HasLedger(s, o)
    ensures Fail(s, o, left).lease == s.lease
    ensures HasLedger(Fail(s, o, left), o) <==>
        s.agents[o].pc.OpenDatabase? || s.agents[o].pc.Recover? || s.agents[o].pc.Open?
  {
  }

  lemma GuardianSteps(s: State, o: Owner)
    requires o in s.agents && AgentInv(s, o) && Guarding(s.agents[o].pc)
    ensures Guarding(Advance(s, o).agents[o].pc) || (s.agents[o].pc.UnlinkGuard? && Advance(s, o).guard.None?)
  {
  }

  lemma GuardianFails(s: State, o: Owner, left: Left)
    requires o in s.agents && AgentInv(s, o) && Guarding(s.agents[o].pc)
    ensures Fail(s, o, left).guard.Some?
    ensures Guarding(Fail(s, o, left).agents[o].pc) <==>
        !(s.agents[o].pc.WriteGuard? || s.agents[o].pc.ReadGuard? || s.agents[o].pc.UnlinkGuard?)
  {
  }

  /**
   The step at which an opener stops having the ledger decides what it leaves on disk: its lease is gone
   if and only if that step was the call that removes it, and it is left, as it was written, if and only
   if the opener was killed or a call that removes its guard or its lease failed.
   */
  lemma LeaseIsLetGo(s: State, actions: seq<Action>, a: Action, o: Owner)
    requires Init(s)
    requires HasLedger(Run(s, actions), o) && !HasLedger(Next(Run(s, actions), a), o)
    ensures var (t, u) := (Run(s, actions), Next(Run(s, actions), a));
            && (u.lease.None? <==> a == Step(o))
            && (u.lease == Some(Own(t, o)) <==> a == Crash(t.agents[o].pid) || (a.Fault? && a.owner == o))
            && (a == Step(o) ==> t.agents[o].pc == UnlinkOwn)
            && (a.Fault? ==> t.agents[o].pc == ReadOwn || t.agents[o].pc == UnlinkOwn
                             || t.agents[o].pc == ReadGuard(true) || t.agents[o].pc == UnlinkGuard(true))
            && (u.lease.None? || u.lease == Some(Own(t, o)))
  {
    RunKeepsInv(s, actions);
    hide Run, Advance, Fail;
    var t := Run(s, actions);
    assert AgentInv(t, o);
    hide Inv;
    if !Moves(t, a, o) {
      OthersLeaveAgent(t, a, o);
    } else if a.Step? {
      HolderSteps(t, o);
    } else if a.Fault? {
      HolderFails(t, o, a.left);
    }
  }

  /** The guard likewise; a call that fails while the lease is examined does not leave it. */
  lemma GuardIsLetGo(s: State, actions: seq<Action>, a: Action, o: Owner)
    requires Init(s)
    requires o in Run(s, actions).agents && Guarding(Run(s, actions).agents[o].pc)
    requires o in Next(Run(s, actions), a).agents && !Guarding(Next(Run(s, actions), a).agents[o].pc)
    ensures var (t, u) := (Run(s, actions), Next(Run(s, actions), a));
            && (u.guard.None? <==> a == Step(o))
            && (u.guard.Some? <==> a == Crash(t.agents[o].pid) || (a.Fault? && a.owner == o))
            && (a == Step(o) ==> t.agents[o].pc.UnlinkGuard?)
            && (a.Fault? ==> t.agents[o].pc.WriteGuard? || t.agents[o].pc.ReadGuard? || t.agents[o].pc.UnlinkGuard?)
  {
    RunKeepsInv(s, actions);
    hide Run, Advance, Fail;
    var t := Run(s, actions);
    assert AgentInv(t, o);
    hide Inv;
    if !Moves(t, a, o) {
      OthersLeaveAgent(t, a, o);
    } else if a.Step? {
      GuardianSteps(t, o);
    } else if a.Fault? {
      GuardianFails(t, o, a.left);
    }
  }

  /** A reclaimer that has removed the stale lease always creates its own at the second attempt. */
  lemma SecondAttemptSucceeds(s: State, actions: seq<Action>, o: Owner)
    requires Init(s)
    requires Alive(Run(s, actions), o) && Run(s, actions).agents[o].pc == CreateLease(1)
    ensures Next(Run(s, actions), Step(o)).agents[o].pc == WriteLease
  {
    RunKeepsInv(s, actions);
    assert AgentInv(Run(s, actions), o);
  }
}

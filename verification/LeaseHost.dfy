/**
 openExecutionStore and release as the program runs them (runner/src/store.ts:19-85, 98): plain
 file-system calls, with an arbitrary schedule of other openers, crashes, unrelated processes and
 I/O errors between any two of them. Each call is checked to be the step that module Lease takes.
 */
module LeaseHost {
  import opened Wrappers
  import opened Lease

  datatype Errno = EEXIST | ENOENT | ESRCH | EIO

  /** `Gone` means the calling process was killed before the call was made. */
  datatype Io<+T> = Ok(value: T) | Err(code: Errno) | Gone

  datatype Path = GuardFile | LeaseFile

  /** What happens before the opener's next call, and whether that call then raises an I/O error. */
  datatype Turn = Turn(others: seq<Action>, fault: Option<Left>)

  datatype Opening = Opened | Refused | Killed

  /** The I/O error planned for the next call, and the plan for the calls after it. */
  function NextFault(turns: seq<Turn>): Option<Left> {
    if turns == [] then None else turns[0].fault
  }

  function Later(turns: seq<Turn>): seq<Turn> {
    if turns == [] then [] else turns[1..]
  }

  function File(s: State, path: Path): Option<Text> {
    if path == GuardFile then s.guard else s.lease
  }

  function WithFile(s: State, path: Path, text: Option<Text>): State {
    if path == GuardFile then s.(guard := text) else s.(lease := text)
  }

  predicate By(a: Action, me: Owner) {
    (a.Step? || a.Fault? || a.Close?) && a.owner == me
  }

  lemma OthersDoNotMoveMe(s: State, a: Action, me: Owner)
    requires Inv(s) && me in s.agents && !By(a, me)
    ensures me in Next(s, a).agents
    ensures Next(s, a).agents[me] == s.agents[me] || !Alive(Next(s, a), me)
    ensures !Alive(s, me) ==> !Alive(Next(s, a), me)
  {
    assert AgentInv(s, me);
  }

  lemma HolderIsAlone(s: State, actions: seq<Action>, me: Owner)
    requires Init(s) && HasLedger(Run(s, actions), me)
    ensures Run(s, actions).lease == Some(Own(Run(s, actions), me))
    ensures forall p :: HasLedger(Run(s, actions), p) ==> p == me
  {
    forall p | HasLedger(Run(s, actions), p) ensures p == me {
      MutualExclusion(s, actions, p, me);
    }
    MutualExclusion(s, actions, me, me);
  }

  class Host {
    var state: State
    var turns: seq<Turn>
    ghost var origin: State
    ghost var trace: seq<Action>

    ghost predicate Valid()
      reads this
    {
      Init(origin) && state == Run(origin, trace)
    }

    /** The opener runs, and its next call is the one named by `pc`. */
    ghost predicate Ready(me: Owner, pc: Pc)
      reads this
    {
      Valid() && Alive(state, me) && state.agents[me].pc == pc
    }

    method Take(a: Action)
      requires Valid()
      modifies this`state, this`trace
      ensures Valid() && state == Next(old(state), a)
    {
      assert (trace + [a])[..|trace|] == trace;
      state := Next(state, a);
      trace := trace + [a];
    }

    /** Everyone else runs for a while; returns the I/O error planned for the next call, if any. */
    method Yield(me: Owner) returns (fault: Option<Left>)
      requires Valid() && Alive(state, me)
      modifies this
      ensures Valid() && origin == old(origin)
      ensures me in state.agents && (state.agents[me] == old(state.agents[me]) || !Alive(state, me))
      ensures fault == NextFault(old(turns)) && turns == Later(old(turns))
    {
      fault := None;
      if turns != [] {
        var others := turns[0].others;
        fault, turns := turns[0].fault, turns[1..];
        for i := 0 to |others|
          invariant Valid() && origin == old(origin) && turns == Later(old(turns)) && fault == NextFault(old(turns))
          invariant me in state.agents && (state.agents[me] == old(state.agents[me]) || !Alive(state, me))
        {
          RunKeepsInv(origin, trace);
          if !By(others[i], me) {
            OthersDoNotMoveMe(state, others[i], me);
            Take(others[i]);
          }
        }
      }
    }

    /** The call just made left the files as the opener's step (or fault) leaves them; its pc follows. */
    method Commit(me: Owner, fault: Option<Left>, before: State)
      requires Init(origin) && before == Run(origin, trace)
      requires state == Next(before, Taken(me, fault)).(agents := before.agents)
      modifies this`state, this`trace
      ensures Valid() && state == Next(before, Taken(me, fault))
    {
      assert (trace + [Taken(me, fault)])[..|trace|] == trace;
      state := state.(agents := Next(before, Taken(me, fault)).agents);
      trace := trace + [Taken(me, fault)];
    }

    static function Taken(me: Owner, fault: Option<Left>): Action {
      if fault.Some? then Fault(me, fault.value) else Step(me)
    }

    /** openSync(path, "wx"): fails when the file already exists. */
    method CreateExclusive(me: Owner, path: Path, ghost pc: Pc) returns (r: Io<()>)
      requires Ready(me, pc) && (if path == GuardFile then pc == CreateGuard else pc.CreateLease?)
      modifies this
      ensures Valid() && origin == old(origin) && (r.Gone? <==> !Alive(state, me)) && me in state.agents
      ensures r.Ok? ==>
          Ready(me, if path == GuardFile then WriteGuard else WriteLease) && File(state, path) == Some(Blank)
      ensures r.Err? && path == GuardFile ==> Ready(me, Done)
      ensures r.Err? && path == LeaseFile ==>
          Ready(me, if r.code == EEXIST && pc.attempt == 0 then ReadLease else ReadGuard(false))
      ensures r.Err? && path == LeaseFile && r.code == EEXIST ==> pc.attempt == 0
    {
      var fault := Yield(me);
      if !Alive(state, me) { return Gone; }
      RunKeepsInv(origin, trace);
      assert AgentInv(state, me);
      var before := state;
      if fault.Some? {
        r := Err(EIO);
      } else if File(state, path).Some? {
        r := Err(EEXIST);
      } else {
        r, state := Ok(()), WithFile(state, path, Some(Blank));
      }
      Commit(me, fault, before);
    }

    /** writeFileSync and closeSync on a file just created: an error may leave none, part or all of the text. */
    method WriteFile(me: Owner, path: Path, text: Text) returns (r: Io<()>)
      requires Ready(me, if path == GuardFile then WriteGuard else WriteLease) && text == Own(state, me)
      modifies this
      ensures Valid() && origin == old(origin) && (r.Gone? <==> !Alive(state, me)) && me in state.agents
      ensures r.Ok? ==>
          Ready(me, if path == GuardFile then CreateLease(0) else ReadGuard(true)) && File(state, path) == Some(text)
      ensures r.Err? ==> Ready(me, if path == GuardFile then Done else ReadGuard(false))
      ensures r.Err? ==>
          File(state, path) == Some(Blank) || File(state, path) == Some(Unreadable) || File(state, path) == Some(text)
    {
      var fault := Yield(me);
      if !Alive(state, me) { return Gone; }
      RunKeepsInv(origin, trace);
      assert AgentInv(state, me);
      var before := state;
      if fault.Some? {
        r := Err(EIO);
        match fault.value
        case Nothing =>
        case Part => state := WithFile(state, path, Some(Unreadable));
        case Whole => state := WithFile(state, path, Some(text));
      } else {
        r, state := Ok(()), WithFile(state, path, Some(text));
      }
      Commit(me, fault, before);
    }

    /** readFileSync while examining another owner's lease: the first read, or the comparison read. */
    method ReadLeaseFile(me: Owner, ghost pc: Pc) returns (r: Io<Text>)
      requires Ready(me, pc) && (pc.ReadLease? || pc.Reread?)
      modifies this
      ensures Valid() && origin == old(origin) && (r.Gone? <==> !Alive(state, me)) && me in state.agents
      ensures r.Err? ==> Ready(me, ReadGuard(false))
      ensures r.Ok? && pc.ReadLease? ==> Ready(me, if r.value.Record? then Probe(r.value) else ReadGuard(false))
      ensures r.Ok? && pc.Reread? ==>
          Ready(me, if r.value == pc.previous then UnlinkStale(pc.previous) else ReadGuard(false))
    {
      var fault := Yield(me);
      if !Alive(state, me) { return Gone; }
      var before := state;
      r := if fault.Some? then Err(EIO) else if state.lease.None? then Err(ENOENT) else Ok(state.lease.value);
      Commit(me, fault, before);
    }

    /** process.kill(pid, 0): ESRCH when no process has that id. */
    method Signal(me: Owner, previous: Text) returns (r: Io<()>)
      requires Ready(me, Probe(previous)) && previous.Record?
      modifies this
      ensures Valid() && origin == old(origin) && (r.Gone? <==> !Alive(state, me)) && me in state.agents
      ensures !r.Gone? ==> Ready(me, if r == Err(ESRCH) then Reread(previous) else ReadGuard(false))
    {
      var fault := Yield(me);
      if !Alive(state, me) { return Gone; }
      var before := state;
      r := if fault.Some? then Err(EIO) else if previous.pid !in state.live then Err(ESRCH) else Ok(());
      Commit(me, fault, before);
    }

    /** unlinkSync of the stale lease. */
    method RemoveStale(me: Owner, ghost previous: Text) returns (r: Io<()>)
      requires Ready(me, UnlinkStale(previous))
      modifies this
      ensures Valid() && origin == old(origin) && (r.Gone? <==> !Alive(state, me)) && me in state.agents
      ensures !r.Gone? ==> Ready(me, if r.Ok? then CreateLease(1) else ReadGuard(false))
    {
      var fault := Yield(me);
      if !Alive(state, me) { return Gone; }
      var before := state;
      if fault.Some? {
        r := Err(EIO);
      } else if state.lease.None? {
        r := Err(ENOENT);
      } else {
        r, state := Ok(()), WithFile(state, LeaseFile, None);
      }
      Commit(me, fault, before);
    }

    /** What the opener does after it has looked at, or removed, the file it created under `path`. */
    static function Afterwards(path: Path, ok: bool): Pc {
      if path == GuardFile && ok then OpenDatabase else Done
    }

    /** readFileSync of the guard or the lease, and the comparison with this opener's own record. */
    method IsOwnFile(me: Owner, path: Path, ok: bool) returns (r: Io<bool>)
      requires Ready(me, if path == GuardFile then ReadGuard(ok) else ReadOwn)
      modifies this
      ensures Valid() && origin == old(origin) && (r.Gone? <==> !Alive(state, me)) && me in state.agents
      ensures r.Err? ==> Ready(me, Done)
      ensures r.Ok? && r.value ==> Ready(me, if path == GuardFile then UnlinkGuard(ok) else UnlinkOwn)
      ensures r.Ok? && !r.value ==> Ready(me, Afterwards(path, ok))
      ensures !r.Gone? ==> r == (if NextFault(old(turns)).Some? then Err(EIO) else Ok(true))
      ensures !r.Gone? ==> File(state, path) == Some(Own(state, me))
      ensures turns == Later(old(turns))
    {
      var fault := Yield(me);
      if !Alive(state, me) { return Gone; }
      RunKeepsInv(origin, trace);
      assert AgentInv(state, me);
      var before := state;
      if fault.Some? {
        r := Err(EIO);
      } else if File(state, path).None? {
        r := Err(ENOENT);
      } else {
        r := Ok(File(state, path).value == Own(state, me));
      }
      Commit(me, fault, before);
    }

    /** unlinkSync of a file that is this opener's own. */
    method UnlinkOwnFile(me: Owner, path: Path, ok: bool) returns (r: Io<()>)
      requires Ready(me, if path == GuardFile then UnlinkGuard(ok) else UnlinkOwn)
      modifies this
      ensures Valid() && origin == old(origin) && (r.Gone? <==> !Alive(state, me)) && me in state.agents
      ensures r.Err? ==> Ready(me, Done) && File(state, path) == Some(Own(state, me))
      ensures r.Ok? ==> Ready(me, Afterwards(path, ok)) && File(state, path).None?
      ensures !r.Gone? ==> (r.Ok? <==> NextFault(old(turns)).None?)
    {
      var fault := Yield(me);
      if !Alive(state, me) { return Gone; }
      RunKeepsInv(origin, trace);
      assert AgentInv(state, me);
      var before := state;
      if fault.Some? {
        r := Err(EIO);
      } else {
        r, state := Ok(()), WithFile(state, path, None);
      }
      Commit(me, fault, before);
    }

    /** The `finally` around the attempts: removes the guard when it is still this opener's. */
    method RemoveGuard(me: Owner, ok: bool) returns (r: Io<()>)
      requires Ready(me, ReadGuard(ok))
      modifies this
      ensures Valid() && origin == old(origin) && (r.Gone? <==> !Alive(state, me)) && me in state.agents
      ensures !r.Gone? ==> Ready(me, if r.Ok? && ok then OpenDatabase else Done)
      ensures !r.Gone? ==> (r.Ok? <==> state.guard.None?)
      ensures !r.Gone? ==> (r.Ok? <==> NextFault(old(turns)).None? && NextFault(Later(old(turns))).None?)
    {
      var mine := IsOwnFile(me, GuardFile, ok);
      if mine.Gone? { return Gone; }
      if mine.Err? { return Err(mine.code); }
      if !mine.value { return Ok(()); }
      r := UnlinkOwnFile(me, GuardFile, ok);
    }

    /** One database call during start-up: opening the file, or the recovery update. */
    method DatabaseCall(me: Owner, ghost pc: Pc) returns (r: Io<()>)
      requires Ready(me, pc) && (pc.OpenDatabase? || pc.Recover?)
      modifies this
      ensures Valid() && origin == old(origin) && (r.Gone? <==> !Alive(state, me)) && me in state.agents
      ensures r.Ok? ==> Ready(me, if pc.OpenDatabase? then Recover else Open)
      ensures r.Err? ==> Ready(me, ReadOwn)
    {
      var fault := Yield(me);
      if !Alive(state, me) { return Gone; }
      var before := state;
      r := if fault.Some? then Err(EIO) else Ok(());
      Commit(me, fault, before);
    }

    /** release(): removes the lease when it is still this opener's; every error is swallowed. */
    method Release(me: Owner)
      requires Ready(me, ReadOwn)
      modifies this
      ensures Valid() && origin == old(origin) && me in state.agents
      ensures Alive(state, me) ==> Ready(me, Done)
      ensures Alive(state, me) ==>
          if NextFault(old(turns)).None? && NextFault(Later(old(turns))).None? then state.lease.None?
          else state.lease == Some(Own(state, me))
    {
      var mine := IsOwnFile(me, LeaseFile, false);
      if mine.Ok? && mine.value {
        var _ := UnlinkOwnFile(me, LeaseFile, false);
      }
    }

    /** At most two attempts to create the lease while the guard is held. */
    method AcquireLease(me: Owner) returns (r: Io<()>)
      requires Ready(me, CreateLease(0))
      modifies this
      ensures Valid() && origin == old(origin) && (r.Gone? <==> !Alive(state, me)) && me in state.agents
      ensures !r.Gone? ==> Ready(me, ReadGuard(r.Ok?))
    {
      r := Err(EEXIST);
      var attempt := 0;
      while attempt < 2
        invariant Valid() && origin == old(origin) && me in state.agents && 0 <= attempt <= 1
        invariant Ready(me, CreateLease(attempt))
        decreases 2 - attempt
      {
        r := CreateExclusive(me, LeaseFile, CreateLease(attempt));
        if r.Gone? { return; }
        if r.Ok? {
          r := WriteFile(me, LeaseFile, Own(state, me));
          return;
        }
        if r.code != EEXIST || attempt != 0 { return; }
        var previous := ReadLeaseFile(me, ReadLease);
        if previous.Gone? { return Gone; }
        if previous.Err? { return Err(previous.code); }
        if !previous.value.Record? { return Err(EIO); }
        var signal := Signal(me, previous.value);
        if signal.Gone? { return Gone; }
        if signal != Err(ESRCH) { return Err(EIO); }
        var again := ReadLeaseFile(me, Reread(previous.value));
        if again.Gone? { return Gone; }
        if again.Err? || again.value != previous.value { return Err(EIO); }
        r := RemoveStale(me, previous.value);
        if !r.Ok? { return; }
        attempt := attempt + 1;
      }
    }

    /** Guard, lease, guard removal: the part of start-up that runs before the database is opened. */
    method AcquireOwnership(me: Owner) returns (r: Io<()>)
      requires Ready(me, CreateGuard)
      modifies this
      ensures Valid() && origin == old(origin) && (r.Gone? <==> !Alive(state, me)) && me in state.agents
      ensures !r.Gone? ==> Ready(me, if r.Ok? then OpenDatabase else Done)
    {
      r := CreateExclusive(me, GuardFile, CreateGuard);
      if !r.Ok? { return; }
      r := WriteFile(me, GuardFile, Own(state, me));
      if !r.Ok? { return; }
      var acquired := AcquireLease(me);
      if acquired.Gone? { return Gone; }
      r := RemoveGuard(me, acquired.Ok?);
      if r.Ok? && acquired.Err? { return Err(acquired.code); }
    }

    /**
     Whatever everyone else does and whichever calls fail, the opener either has the ledger with its
     own lease on disk and nobody else has it, or holds nothing.
     */
    method OpenExecutionStore(me: Owner) returns (r: Opening)
      requires Ready(me, CreateGuard)
      modifies this
      ensures Valid() && origin == old(origin) && me in state.agents
      ensures r == Opened <==> Ready(me, Open)
      ensures r == Refused <==> Ready(me, Done)
      ensures r == Killed <==> !Alive(state, me)
      ensures r == Opened ==> state.lease == Some(Own(state, me)) && forall p :: HasLedger(state, p) ==> p == me
    {
      var io := AcquireOwnership(me);
      if !io.Ok? { return if io.Gone? then Killed else Refused; }
      io := DatabaseCall(me, OpenDatabase);
      if io.Ok? { io := DatabaseCall(me, Recover); }
      if io.Gone? { return Killed; }
      if io.Err? {
        Release(me);
        return if Alive(state, me) then Refused else Killed;
      }
      HolderIsAlone(origin, trace, me);
      r := Opened;
    }

    /** close(): the database is closed, then the lease is let go. */
    method CloseStore(me: Owner)
      requires Ready(me, Open)
      modifies this
      ensures Valid() && origin == old(origin) && !HasLedger(state, me)
      ensures Alive(state, me) ==>
          if NextFault(old(turns)).None? && NextFault(Later(old(turns))).None? then state.lease.None?
          else state.lease == Some(Own(state, me))
    {
      Take(Close(me));
      Release(me);
    }
  }

  // ----- an opener that runs alone

  function Solo(s: State, o: Owner, calls: nat): State
    decreases calls
  {
    if calls == 0 then s else Solo(Next(s, Step(o)), o, calls - 1)
  }

  /** The ledger is free: no guard, and no lease or a readable one whose process is gone. */
  predicate Free(s: State) {
    s.guard.None? && (s.lease.None? || (s.lease.value.Record? && s.lease.value.pid !in s.live))
  }

  lemma SoloAdvances(s: State, o: Owner, calls: nat)
    requires 0 < calls && Alive(s, o)
    ensures Solo(s, o, calls) == Solo(Advance(s, o), o, calls - 1)
  {
  }

  lemma {:induction false} SoloRests(s: State, o: Owner, calls: nat)
    requires Alive(s, o) && (s.agents[o].pc == Open || s.agents[o].pc == Done)
    ensures Solo(s, o, calls) == s
    decreases calls
  {
    if calls > 0 { SoloRests(s, o, calls - 1); }
  }

  /** From a created guard to the open ledger, once the lease file is absent. */
  lemma SoloTakesFreeLease(s: State, o: Owner, n: nat, calls: nat)
    requires Alive(s, o) && s.agents[o].pc == CreateLease(n) && s.lease.None? && s.guard == Some(Own(s, o))
        && 6 <= calls
    ensures Solo(s, o, calls) == At(s.(guard := None, lease := Some(Own(s, o))), o, Open)
  {
    hide Solo, Next;
    var s1 := Advance(s, o);
    var s2 := Advance(s1, o);
    SoloAdvances(s, o, calls);
    SoloAdvances(s1, o, calls - 1);
    assert s2 == At(s.(lease := Some(Own(s, o))), o, ReadGuard(true));
    SoloOpensOwned(s2, o, calls - 2);
    assert At(s2.(guard := None), o, Open).agents == At(s, o, Open).agents;
  }

  /** From both files written to the open ledger. */
  lemma SoloOpensOwned(s: State, o: Owner, calls: nat)
    requires Alive(s, o) && s.agents[o].pc == ReadGuard(true) && s.guard == Some(Own(s, o)) && 4 <= calls
    ensures Solo(s, o, calls) == At(s.(guard := None), o, Open)
  {
    hide Solo, Next;
    var s1 := Advance(s, o);
    var s2 := Advance(s1, o);
    var s3 := Advance(s2, o);
    var s4 := Advance(s3, o);
    SoloAdvances(s, o, calls);
    SoloAdvances(s1, o, calls - 1);
    SoloAdvances(s2, o, calls - 2);
    SoloAdvances(s3, o, calls - 3);
    SoloRests(s4, o, calls - 4);
    assert s4.agents == At(s, o, Open).agents;
  }

  /** From creating the guard to the verdict on the lease: refused, or the stale lease is gone. */
  lemma SoloExaminesLease(s: State, o: Owner, calls: nat)
    requires Alive(s, o) && s.agents[o].pc == CreateLease(0) && s.lease.Some? && s.guard == Some(Own(s, o))
        && 11 <= calls
    ensures Free(s.(guard := None)) ==>
              Solo(s, o, calls) == At(s.(guard := None, lease := Some(Own(s, o))), o, Open)
    ensures !Free(s.(guard := None)) ==> Solo(s, o, calls) == At(s.(guard := None), o, Done)
  {
    hide Solo, Next;
    var s1 := Advance(s, o);
    SoloAdvances(s, o, calls);
    var s2 := Advance(s1, o);
    SoloAdvances(s1, o, calls - 1);
    if !s.lease.value.Record? {
      SoloLeavesGuard(s2, o, calls - 2);
      assert At(s2.(guard := None), o, Done).agents == At(s, o, Done).agents;
    } else {
      var s3 := Advance(s2, o);
      SoloAdvances(s2, o, calls - 2);
      if s.lease.value.pid in s.live {
        SoloLeavesGuard(s3, o, calls - 3);
        assert At(s3.(guard := None), o, Done).agents == At(s, o, Done).agents;
      } else {
        var s4 := Advance(s3, o);
        SoloAdvances(s3, o, calls - 3);
        var s5 := Advance(s4, o);
        SoloAdvances(s4, o, calls - 4);
        SoloTakesFreeLease(s5, o, 1, calls - 5);
        assert At(s5.(guard := None, lease := Some(Own(s, o))), o, Open).agents == At(s, o, Open).agents;
      }
    }
  }

  lemma SoloLeavesGuard(s: State, o: Owner, calls: nat)
    requires Alive(s, o) && s.agents[o].pc == ReadGuard(false) && s.guard == Some(Own(s, o)) && 2 <= calls
    ensures Solo(s, o, calls) == At(s.(guard := None), o, Done)
  {
    var s1 := Advance(s, o);
    var s2 := Advance(s1, o);
    SoloAdvances(s, o, calls);
    SoloAdvances(s1, o, calls - 1);
    SoloRests(s2, o, calls - 2);
    assert s2.agents == At(s, o, Done).agents;
  }

  lemma SoloTakesGuard(s: State, o: Owner)
    requires Alive(s, o) && s.agents[o].pc == CreateGuard && s.guard.None?
    ensures Solo(s, o, 13) == Solo(At(s.(guard := Some(Own(s, o))), o, CreateLease(0)), o, 11)
  {
    var s1 := Advance(s, o);
    SoloAdvances(s, o, 13);
    SoloAdvances(s1, o, 12);
    assert Advance(s1, o).agents == At(s, o, CreateLease(0)).agents;
  }

  lemma AtTwice(s: State, o: Owner, first: Pc, second: Pc)
    requires o in s.agents
    ensures At(At(s, o, first), o, second).agents == At(s, o, second).agents
  {
  }

  /**
   An opener that runs alone and meets no I/O error gets the ledger if and only if it is free;
   otherwise both files are left as they were found. Its own process counts as live, so a lease
   left by a dead process whose id the new process happens to reuse also refuses it.
   */
  lemma SoloOutcome(s: State, o: Owner)
    requires Alive(s, o) && s.agents[o].pc == CreateGuard
    ensures Free(s) ==> Solo(s, o, 13) == At(s.(lease := Some(Own(s, o))), o, Open)
    ensures !Free(s) ==> Solo(s, o, 13) == At(s, o, Done)
  {
    if s.guard.Some? {
      SoloAdvances(s, o, 13);
      SoloRests(Advance(s, o), o, 12);
    } else {
      SoloTakesGuard(s, o);
      var t := At(s.(guard := Some(Own(s, o))), o, CreateLease(0));
      AtTwice(s, o, CreateLease(0), Open);
      AtTwice(s, o, CreateLease(0), Done);
      if s.lease.None? {
        SoloTakesFreeLease(t, o, 0, 11);
      } else {
        SoloExaminesLease(t, o, 11);
      }
    }
  }

  /** Closing alone and without an I/O error removes the lease: what is left is free for the next opener. */
  lemma SoloCloses(s: State, o: Owner)
    requires Alive(s, o) && s.agents[o].pc == Open && s.guard.None? && s.lease == Some(Own(s, o))
    ensures Solo(Next(s, Close(o)), o, 2) == At(s.(lease := None), o, Done) && Free(At(s.(lease := None), o, Done))
  {
    var s0 := Next(s, Close(o));
    var s1 := Advance(s0, o);
    SoloAdvances(s0, o, 2);
    SoloAdvances(s1, o, 1);
    SoloRests(Advance(s1, o), o, 0);
    assert Advance(s1, o).agents == At(s, o, Done).agents;
  }

  /** So a ledger that was opened and closed alone is opened again, in the same process or another. */
  lemma SoloReopens(s: State, o: Owner, p: Owner, pid: Pid)
    requires Alive(s, o) && s.agents[o].pc == Open && s.guard.None? && s.lease == Some(Own(s, o))
    requires p !in s.minted && o in s.minted
    ensures var closed := Solo(Next(s, Close(o)), o, 2);
            var begun := Next(closed, Begin(p, pid));
            Solo(begun, p, 13) == At(begun.(lease := Some(Own(begun, p))), p, Open)
  {
    SoloCloses(s, o);
    SoloOutcome(Next(At(s.(lease := None), o, Done), Begin(p, pid)), p);
  }
}

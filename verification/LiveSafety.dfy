/**
 What is shown in a review session never goes backwards, over every run of module ReviewLive: reads
 that are shown do not overlap, a review that is shown stays, and a shown decision is final.
 */
module LiveSafety {
  import opened Wrappers
  import opened ReviewClient
  import opened ReviewTable
  import opened ReviewLive
  import S = ReviewStore

  // ----- the invariant

  ghost predicate VersionsOk(versions: seq<Version>) {
    |versions| > 0
    && (forall i, j :: 0 <= i <= j < |versions| ==> Extends(versions[i].table, versions[j].table))
    && (forall i :: 0 <= i < |versions| ==> UniqueIds(versions[i].table))
  }

  ghost predicate StampOk(r: Stamp, clock: nat, newest: nat) {
    r.time < clock && r.version <= newest && (r.served.Some? ==> r.version <= r.served.value <= newest)
  }

  ghost predicate ReadsStamped(live: map<nat, Stamp>, inFlight: map<nat, nat>, clock: nat, newest: nat) {
    live.Keys == inFlight.Keys && forall n :: n in live ==> StampOk(live[n], clock, newest)
  }

  /** Begun after the list last changed, at the version shown then or a later one. */
  ghost predicate After(r: Stamp, floor: nat, lastEnd: nat) {
    r.time > lastEnd && r.version >= floor
  }

  ghost predicate ReadOrdered(c: Client, live: map<nat, Stamp>, floor: nat, lastEnd: nat) {
    forall n :: Applies(c, n) && n in live ==> After(live[n], floor, lastEnd)
  }

  /** The row a write returns: in scope, and for a submission of a review that did not exist before. */
  ghost predicate AnswerOk(s: State, k: nat, task: Task)
    requires task.Writing?
  {
    0 < k < |s.versions| && task.at < |s.versions[k].table| && Concerns(s.me, s.versions[k].touched)
    && InScope(s.me, s.versions[k].table[task.at])
    && (task.request.SubmitRun? ==> |s.versions[k - 1].table| <= task.at)
  }

  ghost predicate TaskOk(s: State) {
    s.task.Some? == s.client.working
    && (s.task.Some? ==>
          StampOk(s.task.value.stamp, s.log.clock, V(s)) && After(s.task.value.stamp, s.log.floor, s.log.lastEnd)
          && (s.task.value.Writing? && s.task.value.stamp.served.Some? ==>
                s.task.value.stamp.version < s.task.value.stamp.served.value
                    && AnswerOk(s, s.task.value.stamp.served.value, s.task.value)))
  }

  /** `v` is an earlier state of a row of `t`. */
  ghost predicate Known(v: Row, t: Table) {
    exists i :: 0 <= i < |t| && S.Firmer(v, t[i])
  }

  ghost predicate ShownOk(me: Actor, shown: Reviews, t: Table) {
    UniqueIds(shown) && forall i :: 0 <= i < |shown| ==> InScope(me, shown[i]) && Known(shown[i], t)
  }

  ghost predicate LogOk(log: Log) {
    log.lastEnd < log.clock
    && (forall i :: 0 <= i < |log.applied| ==>
        log.applied[i].started < log.applied[i].ended <= log.lastEnd && log.applied[i].version <= log.floor)
    && (forall i, j :: 0 <= i < j < |log.applied| ==>
        log.applied[i].ended < log.applied[j].started && log.applied[i].version <= log.applied[j].version)
  }

  ghost predicate Inv(s: State) {
    VersionsOk(s.versions) && ClientOk(s.client) && ReadsStamped(s.live, s.client.inFlight, s.log.clock, V(s))
        && ReadOrdered(s.client, s.live, s.log.floor, s.log.lastEnd) && TaskOk(s) && LogOk(s.log)
    && s.log.floor <= V(s) && ShownOk(s.me, s.client.shown, TableAt(s, s.log.floor))
  }

  /** Every shown review is still shown, at the same state or a later one. */
  ghost predicate Kept(shown: Reviews, later: Reviews) {
    forall i :: 0 <= i < |shown| ==> Known(shown[i], later)
  }

  // ----- lists and versions

  lemma PersistKeepsVersions(versions: seq<Version>, w: Write)
    requires VersionsOk(versions) && WriteOk(versions[|versions| - 1].table, w)
    ensures VersionsOk(versions + [Version(Applied(versions[|versions| - 1].table, w), w.review.researcherId,
        RowOf(versions[|versions| - 1].table, w))])
  {
    var last := versions[|versions| - 1].table;
    var all := versions + [Version(Applied(last, w), w.review.researcherId, RowOf(last, w))];
    WriteGrows(last, w);
    forall i, j | 0 <= i <= j < |all| ensures Extends(all[i].table, all[j].table) {
      if j == |versions| && i < j {
        ExtendsTransitive(versions[i].table, last, all[j].table);
      }
    }
  }

  lemma KnownLater(v: Row, t: Table, u: Table)
    requires Known(v, t) && Extends(t, u)
    ensures Known(v, u)
  {
    var i :| 0 <= i < |t| && S.Firmer(v, t[i]);
    assert S.Firmer(v, u[i]);
  }

  lemma ShownLater(me: Actor, shown: Reviews, t: Table, u: Table)
    requires ShownOk(me, shown, t) && Extends(t, u)
    ensures ShownOk(me, shown, u)
  {
    forall i | 0 <= i < |shown| ensures Known(shown[i], u) { KnownLater(shown[i], t, u); }
  }

  lemma SnapshotOk(me: Actor, t: Table)
    requires UniqueIds(t)
    ensures ShownOk(me, ListFor(me, t), t)
  {
    ListContains(me, t);
    var list := ListFor(me, t);
    forall i | 0 <= i < |list| ensures InScope(me, list[i]) && Known(list[i], t) {
      assert list[i] in list;
      var j :| 0 <= j < |t| && t[j] == list[i];
      assert S.Firmer(list[i], t[j]);
    }
  }

  /** A list loaded at or after the version shown contains everything shown. */
  lemma SnapshotKeeps(me: Actor, shown: Reviews, t: Table)
    requires ShownOk(me, shown, t) && UniqueIds(t)
    ensures Kept(shown, ListFor(me, t))
  {
    ListContains(me, t);
    var list := ListFor(me, t);
    forall i | 0 <= i < |shown| ensures Known(shown[i], list) {
      var j :| 0 <= j < |t| && S.Firmer(shown[i], t[j]);
      assert t[j] in t && InScope(me, t[j]);
      var k :| 0 <= k < |list| && list[k] == t[j];
    }
  }

  lemma SameKept(shown: Reviews)
    ensures Kept(shown, shown)
  {
    forall i | 0 <= i < |shown| ensures Known(shown[i], shown) { assert S.Firmer(shown[i], shown[i]); }
  }

  /** Showing a new submission first repeats nothing. */
  lemma SubmitPatch(me: Actor, shown: Reviews, before: Table, t: Table, at: nat)
    requires ShownOk(me, shown, before) && Extends(before, t) && UniqueIds(t) && |before| <= at < |t|
        && InScope(me, t[at])
    ensures ShownOk(me, [t[at]] + shown, t) && Kept(shown, [t[at]] + shown)
  {
    ShownLater(me, shown, before, t);
    var all := [t[at]] + shown;
    forall i | 0 <= i < |shown| ensures shown[i].id != t[at].id && Known(shown[i], all) {
      var j :| 0 <= j < |before| && S.Firmer(shown[i], before[j]);
      assert S.Firmer(before[j], t[j]);
      assert all[i + 1] == shown[i] && S.Firmer(shown[i], all[i + 1]);
    }
    assert S.Firmer(t[at], t[at]);
  }

  /** Showing a decision replaces the review by a later state of it. */
  lemma DecidePatch(me: Actor, shown: Reviews, t: Table, at: nat)
    requires ShownOk(me, shown, t) && UniqueIds(t) && at < |t| && InScope(me, t[at])
    ensures ShownOk(me, Patched(shown, t[at]), t) && Kept(shown, Patched(shown, t[at]))
  {
    var patched := Patched(shown, t[at]);
    forall i | 0 <= i < |shown| ensures InScope(me, patched[i]) && Known(patched[i], t) && Known(shown[i], patched) {
      var j :| 0 <= j < |t| && S.Firmer(shown[i], t[j]);
      assert S.Firmer(t[at], t[at]);
      if shown[i].id == t[at].id { assert j == at; }
      assert S.Firmer(shown[i], patched[i]);
    }
  }

  // ----- every step keeps it

  function Ticked(s: State, t: State): State {
    t.(log := t.log.(clock := s.log.clock + 1))
  }

  /** The parts of the log that the invariant speaks of. */
  ghost predicate SameTimes(a: Log, b: Log) {
    a.clock == b.clock && a.floor == b.floor && a.lastEnd == b.lastEnd && a.applied == b.applied
  }

  /** Steps that leave the client, its reads and its operation alone. */
  lemma ElsewhereKeepsInv(s: State, t: State)
    requires Inv(s) && t.me == s.me && t.client == s.client && t.live == s.live && t.task == s.task
        && t.versions == s.versions
    requires SameTimes(s.log, t.log)
    ensures Inv(Ticked(s, t))
  {
  }

  /** Steps that only move the operation's request on. */
  lemma TaskKeepsInv(s: State, t: State)
    requires Inv(s) && t == s.(task := t.task) && TaskOk(Ticked(s, t))
    ensures Inv(Ticked(s, t))
  {
    hide VersionsOk, ShownOk, TaskOk, ClientOk;
  }

  lemma PersistKeepsInv(s: State, w: Write)
    requires Inv(s) && WriteOk(Top(s), w)
    ensures Inv(Ticked(s, Persist(s, w)))
  {
    PersistKeepsVersions(s.versions, w);
  }

  /** A callback may start one read; nothing else about the reads changes. */
  ghost predicate Calls(c: Client, d: Client) {
    ClientOk(d) && d.shown == c.shown && d.foreground == c.foreground && d.working == c.working
    && (d.latest == c.latest ==> d.inFlight == c.inFlight)
    && (d.latest != c.latest ==>
        !c.working && d.latest == c.latest + 1 && d.inFlight == c.inFlight[d.latest := c.foreground])
  }

  ghost predicate Tracks(s: State, t: State, d: Client) {
    t.me == s.me && t.versions == s.versions && t.client == s.client && t.live == s.live && t.task == s.task
    && t.log == s.log.(lastChanged := t.log.lastChanged, changedAt := t.log.changedAt) && Calls(s.client, d)
  }

  lemma TrackKeepsReads(s: State, t: State, d: Client)
    requires ReadsStamped(s.live, s.client.inFlight, s.log.clock, V(s))
        && ReadOrdered(s.client, s.live, s.log.floor, s.log.lastEnd) && ClientOk(s.client) && LogOk(s.log)
        && s.log.floor <= V(s) && Tracks(s, t, d)
    ensures var u := Ticked(s, Track(t, d));
            ReadsStamped(u.live, u.client.inFlight, u.log.clock, V(u))
                && ReadOrdered(u.client, u.live, u.log.floor, u.log.lastEnd)
  {
    var u := Ticked(s, Track(t, d));
    if d.latest == s.client.latest {
      assert u.live == s.live;
    } else {
      assert u.live == s.live[d.latest := NewStamp(s)];
      assert u.live.Keys == u.client.inFlight.Keys;
    }
  }

  lemma TrackKeepsInv(s: State, t: State, d: Client)
    requires Inv(s) && Tracks(s, t, d)
    ensures Inv(Ticked(s, Track(t, d)))
  {
    TrackKeepsReads(s, t, d);
    hide VersionsOk, ShownOk, ReadsStamped, ReadOrdered, ClientOk;
  }

  lemma SettleKeepsInv(s: State, n: nat)
    requires Inv(s)
    ensures Inv(s.(live := Without(s.live, n), client := Settled(s.client, n)))
  {
    assert Without(s.live, n).Keys == Without(s.client.inFlight, n).Keys;
  }

  lemma FailReadKeepsInv(s: State, n: nat)
    requires Inv(s)
    ensures Inv(Ticked(s, FailRead(s, n))) && FailRead(s, n).client.shown == s.client.shown
  {
    SettleKeepsInv(s, n);
    hide Inv, Settled, Without, Applies, Ticked;
    if n in s.live {
      var t := s.(live := Without(s.live, n), client := Settled(s.client, n));
      ElsewhereKeepsInv(t, FailRead(s, n));
      SameClock(s, t, FailRead(s, n));
    } else {
      ElsewhereKeepsInv(s, s);
    }
  }

  lemma AnswerKeepsInv(s: State, n: nat)
    requires Inv(s)
    ensures Inv(Ticked(s, AnswerRead(s, n))) && Kept(s.client.shown, AnswerRead(s, n).client.shown)
  {
    hide VersionsOk, ShownOk, ReadsStamped, ReadOrdered, ClientOk, LogOk, TaskOk;
    SameKept(s.client.shown);
    if n in s.live && s.live[n].served.Some? {
      if Applies(s.client, n) { AnswerShows(s, n); } else { AnswerDropped(s, n); }
    } else {
      ElsewhereKeepsInv(s, s);
    }
  }

  lemma LiveIsInFlight(s: State, n: nat)
    requires Inv(s) && n in s.live
    ensures n in s.client.inFlight && ClientOk(s.client)
  {
    hide VersionsOk, ShownOk, LogOk, TaskOk, ReadOrdered, ClientOk;
  }

  lemma AnswerDropped(s: State, n: nat)
    requires Inv(s) && n in s.live && s.live[n].served.Some? && !Applies(s.client, n)
    ensures Inv(Ticked(s, AnswerRead(s, n))) && AnswerRead(s, n).client.shown == s.client.shown
  {
    hide Inv, ReadOk, Settled, Track, AnswerRead, Calls, Ticked, Scoped, Without, TableAt, ClientOk;
    LiveIsInFlight(s, n);
    SettleKeepsInv(s, n);
    var t := s.(live := Without(s.live, n), client := Settled(s.client, n));
    var next := Scoped(s.me, TableAt(s, s.live[n].served.value));
    DroppedCalls(s.client, n, next);
    DroppedTracks(s, n);
    TrackKeepsInv(t, t, ReadOk(s.client, n, next));
    SameClock(s, t, AnswerRead(s, n));
  }

  lemma SameClock(s: State, t: State, u: State)
    requires s.log.clock == t.log.clock
    ensures Ticked(s, u) == Ticked(t, u)
  {
  }

  lemma DroppedTracks(s: State, n: nat)
    requires n in s.live && n in s.client.inFlight && s.live[n].served.Some? && !Applies(s.client, n)
    ensures var d := ReadOk(s.client, n, Scoped(s.me, TableAt(s, s.live[n].served.value)));
            var t := s.(live := Without(s.live, n), client := Settled(s.client, n));
            AnswerRead(s, n) == Track(t, d) && Track(t, d).client == d
  {
    hide Scoped, Without;
  }

  lemma DroppedCalls(c: Client, n: nat, next: Reviews)
    requires ClientOk(c) && n in c.inFlight && !(n == c.latest && c.inFlight[n] == c.foreground)
    ensures Calls(Settled(c, n), ReadOk(c, n, next)) && ReadOk(c, n, next).shown == c.shown
  {
    CallbacksKeepOk(c, n, next);
  }

  lemma RecordKeepsLog(log: Log, after: Log, r: Stamp, k: nat, newest: nat)
    requires LogOk(log) && StampOk(r, log.clock, newest) && After(r, log.floor, log.lastEnd) && r.version <= k <= newest
        && log.floor <= newest
    requires after.clock == log.clock + 1 && after.lastEnd == log.clock && after.floor == newest
    requires after.applied == log.applied + [Lifetime(r.time, log.clock, k)]
    ensures LogOk(after)
  {
  }

  lemma AnswerShows(s: State, n: nat)
    requires Inv(s) && n in s.live && s.live[n].served.Some? && Applies(s.client, n)
    ensures Inv(Ticked(s, AnswerRead(s, n))) && Kept(s.client.shown, AnswerRead(s, n).client.shown)
  {
    hide VersionsOk, ShownOk, Kept, LogOk, Scoped, TaskOk;
    var k, u := s.live[n].served.value, Ticked(s, AnswerRead(s, n));
    assert After(s.live[n], s.log.floor, s.log.lastEnd) && StampOk(s.live[n], s.log.clock, V(s));
    ShowSnapshot(s, k);
    RecordKeepsLog(s.log, u.log, s.live[n], k, V(s));
    SettleKeepsInv(s, n);
    IdleTask(s, u);
  }

  /** A live read is shown only while no operation runs. */
  lemma IdleTask(s: State, u: State)
    requires TaskOk(s) && !s.client.working && u.task == s.task && u.client.working == s.client.working
    ensures TaskOk(u)
  {
  }

  lemma ShowSnapshot(s: State, k: nat)
    requires Inv(s) && s.log.floor <= k <= V(s)
    ensures var list := Scoped(s.me, TableAt(s, k)); ShownOk(s.me, list, Top(s)) && Kept(s.client.shown, list)
  {
    ShownLater(s.me, s.client.shown, TableAt(s, s.log.floor), TableAt(s, k));
    SnapshotOk(s.me, TableAt(s, k));
    SnapshotKeeps(s.me, s.client.shown, TableAt(s, k));
    ShownLater(s.me, Scoped(s.me, TableAt(s, k)), TableAt(s, k), Top(s));
  }

  /** An operation that ends leaves no read that could still be shown. */
  lemma EndKeepsReads(s: State, t: State)
    requires ReadsStamped(s.live, s.client.inFlight, s.log.clock, V(s)) && ClientOk(s.client) && s.client.working
    requires t.live == s.live && t.client == EndWork(s.client).(shown := t.client.shown) && V(t) == V(s)
        && t.log.clock == s.log.clock + 1
    ensures ReadsStamped(t.live, t.client.inFlight, t.log.clock, V(t))
        && ReadOrdered(t.client, t.live, t.log.floor, t.log.lastEnd) && ClientOk(t.client)
  {
  }

  lemma LoadingKeepsInv(s: State)
    requires Inv(s) && s.task.Some? && s.task.value.Loading? && s.task.value.stamp.served.Some?
    ensures Inv(Ticked(s, FinishTask(s))) && Kept(s.client.shown, FinishTask(s).client.shown)
  {
    var k, u := s.task.value.stamp.served.value, Ticked(s, FinishTask(s));
    ShowSnapshot(s, k);
    EndKeepsReads(s, u);
    RecordKeepsLog(s.log, u.log, s.task.value.stamp, k, V(s));
    hide VersionsOk, ShownOk, Kept, LogOk, ReadsStamped, ReadOrdered, ClientOk, Scoped;
  }

  lemma PatchShows(s: State, k: nat, task: Task)
    requires VersionsOk(s.versions) && s.log.floor < k && task.Writing? && AnswerOk(s, k, task)
    requires ShownOk(s.me, s.client.shown, TableAt(s, s.log.floor))
    ensures var row := TableAt(s, k)[task.at];
            var shown := if task.request.SubmitRun? then [row] + s.client.shown else Patched(s.client.shown, row);
            ShownOk(s.me, shown, Top(s)) && Kept(s.client.shown, shown)
  {
    var at := task.at;
    if task.request.SubmitRun? {
      assert Extends(s.versions[s.log.floor].table, s.versions[k - 1].table);
      SubmitPatch(s.me, s.client.shown, TableAt(s, s.log.floor), TableAt(s, k), at);
      ShownLater(s.me, [TableAt(s, k)[at]] + s.client.shown, TableAt(s, k), Top(s));
    } else {
      ShownLater(s.me, s.client.shown, TableAt(s, s.log.floor), TableAt(s, k));
      DecidePatch(s.me, s.client.shown, TableAt(s, k), at);
      ShownLater(s.me, Patched(s.client.shown, TableAt(s, k)[at]), TableAt(s, k), Top(s));
    }
  }

  lemma WritingKeepsInv(s: State)
    requires Inv(s) && s.task.Some? && s.task.value.Writing? && s.task.value.stamp.served.Some?
    requires s.task.value.stamp.served.value !in s.unpublished
    ensures Inv(Ticked(s, FinishTask(s))) && Kept(s.client.shown, FinishTask(s).client.shown)
  {
    var k, u := s.task.value.stamp.served.value, Ticked(s, FinishTask(s));
    hide VersionsOk, ShownOk, Kept, ReadsStamped, ReadOrdered, ClientOk, LogOk, FinishTask, Patched, Answered, Concerns,
      InScope;
    PatchShows(s, k, s.task.value);
    PatchedState(s, k, s.task.value);
    EndKeepsReads(s, u);
    assert LogOk(u.log) by { LaterLog(s.log, u.log); }
  }

  lemma PatchedState(s: State, k: nat, task: Task)
    requires s.task == Some(task) && task.Writing? && task.stamp.served == Some(k) && k !in s.unpublished
        && task.at < |TableAt(s, k)|
    ensures var row := TableAt(s, k)[task.at];
            var shown := if task.request.SubmitRun? then [row] + s.client.shown else Patched(s.client.shown, row);
            var u := FinishTask(s);
            u.client == EndWork(s.client).(shown := shown) && u.task == None && u.me == s.me && u.versions == s.versions
                && u.live == s.live
            && u.log == s.log.(floor := V(s), lastEnd := s.log.clock, shownAt := None,
                seen := Answered(s.log.seen, task.request, task.at, k),
                               lastWork := s.log.clock)
  {
    hide Patched;
  }

  lemma LaterLog(log: Log, after: Log)
    requires LogOk(log) && after.applied == log.applied && after.floor >= log.floor && after.lastEnd == log.clock
        && after.clock == log.clock + 1
    ensures LogOk(after)
  {
  }

  lemma FinishKeepsInv(s: State)
    requires Inv(s)
    ensures Inv(Ticked(s, FinishTask(s))) && Kept(s.client.shown, FinishTask(s).client.shown)
  {
    SameKept(s.client.shown);
    if s.task.None? || s.task.value.stamp.served.None? || (s.task.value.Writing?
        && s.task.value.stamp.served.value in s.unpublished) {
      ElsewhereKeepsInv(s, s);
    } else if s.task.value.Loading? {
      LoadingKeepsInv(s);
    } else {
      WritingKeepsInv(s);
    }
  }

  /** What the server writes for the client is announced to it, in its scope, and for a submission new. */
  lemma AskedRow(s: State, w: Write)
    requires |s.versions| > 0 && UniqueIds(Top(s)) && s.task.Some? && Asked(s, s.task.value, w)
    ensures AnswerOk(Persist(s, w), |s.versions|, s.task.value.(at := RowOf(Top(s), w)))
  {
    WriteGrows(Top(s), w);
  }

  lemma WrittenKeepsInv(s: State, p: State, w: Write)
    requires Inv(p) && p == Ticked(s, Persist(s, w)) && |s.versions| > 0 && s.task.Some? && s.task.value.Writing?
        && s.task.value.stamp.version <= V(s)
    requires AnswerOk(Persist(s, w), |s.versions|, s.task.value.(at := RowOf(Top(s), w)))
    requires Asked(s, s.task.value, w)
    ensures Inv(Ticked(s, ServeTask(s, ServeWrite(w))))
  {
    hide VersionsOk, ShownOk, ReadsStamped, ReadOrdered, ClientOk, LogOk, Applied, RowOf, Asked;
  }

  lemma ServedShows(s: State, w: Write)
    ensures ServeTask(s, ServeWrite(w)).client == s.client
    ensures !(s.task.Some? && Asked(s, s.task.value, w)) ==> ServeTask(s, ServeWrite(w)) == s
  {
    hide Asked, Applied, RowOf, Top;
  }

  lemma ServeWriteKeepsInv(s: State, w: Write)
    requires Inv(s)
    ensures Inv(Ticked(s, ServeTask(s, ServeWrite(w)))) && ServeTask(s, ServeWrite(w)).client.shown == s.client.shown
  {
    ServedShows(s, w);
    if s.task.Some? && Asked(s, s.task.value, w) {
      PersistKeepsInv(s, w);
      AskedRow(s, w);
      hide VersionsOk, ShownOk, ReadsStamped, ReadOrdered, ClientOk, LogOk, Applied, WriteOk, RowOf, Asked, AnswerOk,
        ServeTask;
      WrittenKeepsInv(s, Ticked(s, Persist(s, w)), w);
    } else {
      hide Inv, ServeTask;
      ElsewhereKeepsInv(s, s);
    }
  }

  lemma ChangedCalls(s: State)
    requires Inv(s)
    ensures Calls(s.client, Changed(s.client))
  {
    hide VersionsOk, ShownOk, LogOk, TaskOk, ReadsStamped, ReadOrdered;
    CallbacksKeepOk(s.client, 0, []);
  }

  lemma ReceiveKeepsInv(s: State, n: nat)
    requires Inv(s)
    ensures Inv(Ticked(s, ReceiveFrame(s, n))) && ReceiveFrame(s, n).client.shown == s.client.shown
  {
    if n in s.sockets && s.sockets[n].frames != [] && s.current == Some(n)
        && (s.sockets[n].frames[0].ReadyFrame? || s.sockets[n].frames[0].ChangedFrame?) {
      var t := s.(sockets := s.sockets[n := s.sockets[n].(frames := s.sockets[n].frames[1..])]);
      var r := t.(log := t.log.(lastChanged := t.log.clock, changedAt := V(t)));
      ChangedCalls(s);
      hide Inv, Changed, Calls, ClientOk;
      TrackKeepsInv(s, r, Changed(s.client));
    } else {
      ReceiveElsewhere(s, n);
    }
  }

  lemma ReceiveElsewhere(s: State, n: nat)
    requires Inv(s)
    requires !(n in s.sockets && s.sockets[n].frames != [] && s.current == Some(n)
        && (s.sockets[n].frames[0].ReadyFrame? || s.sockets[n].frames[0].ChangedFrame?))
    ensures Inv(Ticked(s, ReceiveFrame(s, n))) && ReceiveFrame(s, n).client == s.client
  {
    hide Inv;
    ElsewhereKeepsInv(s, ReceiveFrame(s, n));
  }

  lemma BegunReads(s: State, t: State)
    requires ReadsStamped(s.live, s.client.inFlight, s.log.clock, V(s)) && ClientOk(s.client)
    requires t.live == s.live && t.client == BeginWork(s.client) && V(t) == V(s) && t.log.clock == s.log.clock + 1
    ensures ReadsStamped(t.live, t.client.inFlight, t.log.clock, V(t))
        && ReadOrdered(t.client, t.live, t.log.floor, t.log.lastEnd) && ClientOk(t.client)
  {
    hide V;
  }

  lemma StartKeepsInv(s: State, task: Task)
    requires Inv(s) && task.stamp == NewStamp(s)
    ensures Inv(Ticked(s, Begin(s, task))) && Begin(s, task).client.shown == s.client.shown
  {
    if s.client.working || s.task.Some? {
      hide Inv;
      ElsewhereKeepsInv(s, s);
    } else {
      hide VersionsOk, ShownOk, ReadsStamped, ReadOrdered, ClientOk;
      BegunReads(s, Ticked(s, Begin(s, task)));
    }
  }

  lemma ServedTask(s: State)
    requires TaskOk(s)
    ensures TaskOk(Ticked(s, ServeTask(s, ServeLoad)))
    ensures ServeTask(s, ServeLoad) == s.(task := ServeTask(s, ServeLoad).task)
  {
    hide Asked, Persist, RowOf, Top;
    assert V(Ticked(s, ServeTask(s, ServeLoad))) == V(s);
  }

  lemma ServeLoadKeepsInv(s: State)
    requires Inv(s)
    ensures Inv(Ticked(s, ServeTask(s, ServeLoad))) && ServeTask(s, ServeLoad).client.shown == s.client.shown
  {
    ServedTask(s);
    hide ServeTask;
    TaskKeepsInv(s, ServeTask(s, ServeLoad));
  }

  lemma RefusedTask(s: State)
    requires TaskOk(s) && s.log.lastEnd < s.log.clock && s.log.floor <= V(s)
    ensures TaskOk(Ticked(s, RefuseTask(s)))
    ensures RefuseTask(s) == s.(task := RefuseTask(s).task)
  {
    hide AlreadyDecided, Top;
    assert V(Ticked(s, RefuseTask(s))) == V(s);
  }

  lemma RefuseKeepsInv(s: State)
    requires Inv(s)
    ensures Inv(Ticked(s, RefuseTask(s))) && RefuseTask(s).client.shown == s.client.shown
  {
    RefusedTask(s);
    hide RefuseTask;
    TaskKeepsInv(s, RefuseTask(s));
  }

  lemma FailTaskKeepsInv(s: State)
    requires Inv(s)
    ensures Inv(Ticked(s, FailTask(s))) && FailTask(s).client.shown == s.client.shown
  {
    if s.task.Some? { EndKeepsReads(s, Ticked(s, FailTask(s))); }
    hide VersionsOk, ShownOk, ReadsStamped, ReadOrdered, ClientOk;
  }

  lemma ServedReads(s: State, n: nat)
    requires ReadsStamped(s.live, s.client.inFlight, s.log.clock, V(s))
    requires ReadOrdered(s.client, s.live, s.log.floor, s.log.lastEnd)
    ensures var t := ServeRead(s, n);
            && ReadsStamped(t.live, t.client.inFlight, s.log.clock, V(t))
            && ReadOrdered(t.client, t.live, s.log.floor, s.log.lastEnd) && t == s.(live := t.live)
  {
    if n in s.live && s.live[n].served.None? && s.authorized {
      assert ServeRead(s, n).live.Keys == s.live.Keys;
    }
  }

  lemma ServeKeepsInv(s: State, n: nat)
    requires Inv(s)
    ensures Inv(Ticked(s, ServeRead(s, n))) && ServeRead(s, n).client.shown == s.client.shown
  {
    ServedReads(s, n);
    hide VersionsOk, ShownOk, ClientOk, ReadsStamped, ReadOrdered, ServeRead;
    assert Inv(ServeRead(s, n));
    hide Inv;
    ElsewhereKeepsInv(ServeRead(s, n), ServeRead(s, n));
    SameClock(s, ServeRead(s, n), ServeRead(s, n));
  }

  lemma EffectKeepsInv(s: State)
    requires Inv(s)
    ensures Inv(Ticked(s, Track(s, WorkEnded(s.client)))) && Track(s, WorkEnded(s.client)).client.shown
        == s.client.shown
  {
    CallbacksKeepOk(s.client, 0, []);
    assert Calls(s.client, WorkEnded(s.client));
    TrackKeepsInv(s, s, WorkEnded(s.client));
  }

  /** The steps of the server's sender, of the sockets and of the session itself. */
  predicate Aside(a: Action) {
    a.Publish? || a.Revoke? || a.Expire? || a.Connect? || a.Subscribe? || a.TurnAway? || a.SendReady? || a.Wake?
        || a.SendChanged? || a.Beat? || a.Drop? || a.Lose? || a.Leave?
  }

  /** Neither the table, nor the client, nor its requests, nor their times. */
  ghost predicate SameClient(s: State, t: State) {
    t.me == s.me && t.versions == s.versions && t.client == s.client && t.live == s.live && t.task == s.task
        && t.log == s.log
  }

  lemma SenderSameClient(s: State, n: nat, a: Action)
    ensures SameClient(s, ServerStep(s, n, a))
  {
    hide Sender;
  }

  lemma PublishSameClient(s: State, k: nat)
    ensures SameClient(s, PublishVersion(s, k))
  {
    hide SignalAll, Concerns;
  }

  lemma AsideSameClient(s: State, a: Action)
    requires Aside(a)
    ensures SameClient(s, Act(s, a))
  {
    forall n { SenderSameClient(s, n, a); }
    forall k { PublishSameClient(s, k); }
    hide ServerStep, PublishVersion, SignalAll, Without;
  }

  lemma SocketKeepsInv(s: State, a: Action)
    requires Inv(s) && Aside(a)
    ensures Inv(Ticked(s, Act(s, a))) && Act(s, a).client == s.client
  {
    hide Inv, Act;
    AsideSameClient(s, a);
    ElsewhereKeepsInv(s, Act(s, a));
  }

  lemma WriteKeepsInv(s: State, w: Write)
    requires Inv(s)
    ensures var t := if WriteOk(Top(s), w) then Persist(s, w) else s;
            Inv(Ticked(s, t)) && t.client == s.client
  {
    hide Inv, WriteOk;
    if WriteOk(Top(s), w) { PersistKeepsInv(s, w); } else { ElsewhereKeepsInv(s, s); }
  }

  /** The steps of the client's operation. */
  lemma TaskStepKeepsInv(s: State, a: Action)
    requires Inv(s)
    requires a.StartLoad? || a.StartWrite? || a.ServeLoad? || a.ServeWrite? || a.Refused? || a.TaskFails? || a.TaskDone?
    ensures Inv(Ticked(s, Act(s, a))) && Kept(s.client.shown, Act(s, a).client.shown)
  {
    SameKept(s.client.shown);
    hide Inv, Kept, FinishTask, Ticked, NewStamp, Begin, RefuseTask, ServeTask, FailTask;
    match a
    case TaskDone => FinishKeepsInv(s);
    case ServeWrite(w) => ServeWriteKeepsInv(s, w);
    case StartLoad => StartKeepsInv(s, Loading(NewStamp(s)));
    case StartWrite(request) => StartKeepsInv(s, Writing(NewStamp(s), request, 0));
    case ServeLoad => ServeLoadKeepsInv(s);
    case Refused => RefuseKeepsInv(s);
    case TaskFails => FailTaskKeepsInv(s);
  }

  lemma ActKeepsInv(s: State, a: Action)
    requires Inv(s)
    ensures Inv(Ticked(s, Act(s, a))) && Kept(s.client.shown, Act(s, a).client.shown)
  {
    SameKept(s.client.shown);
    hide Inv, Kept, WriteOk, AnswerRead, ReceiveFrame, Track, Ticked, FailRead, ServeRead, Persist;
    if Aside(a) {
      hide Act;
      SocketKeepsInv(s, a);
    } else if a.WriteBySomeone? {
      WriteKeepsInv(s, a.write);
    } else if a.Receive? {
      ReceiveKeepsInv(s, a.socket);
    } else if a.Answer? {
      AnswerKeepsInv(s, a.read);
    } else if a.Fail? {
      FailReadKeepsInv(s, a.read);
    } else if a.Effect? {
      EffectKeepsInv(s);
    } else if a.Serve? {
      ServeKeepsInv(s, a.read);
    } else {
      hide Act;
      TaskStepKeepsInv(s, a);
    }
  }

  lemma NextKeepsInv(s: State, a: Action)
    requires Inv(s)
    ensures Inv(Next(s, a)) && Kept(s.client.shown, Next(s, a).client.shown)
  {
    SameKept(s.client.shown);
    hide Inv, Kept, Act;
    ActKeepsInv(s, a);
  }

  // ----- over every run

  lemma InitialOk(me: Actor, table: Table)
    requires UniqueIds(table)
    ensures Inv(Initial(me, table))
  {
    forall i | 0 <= i < |table| ensures S.Firmer(table[i], table[i]) { }
  }

  lemma {:induction false} RunKeepsInv(s: State, actions: seq<Action>)
    requires Inv(s)
    ensures Inv(Run(s, actions)) && Kept(s.client.shown, Run(s, actions).client.shown)
    decreases |actions|
  {
    hide Inv, Kept, Next;
    if actions == [] {
      SameKept(s.client.shown);
    } else {
      NextKeepsInv(s, actions[0]);
      RunKeepsInv(Next(s, actions[0]), actions[1..]);
      KeptTransitive(s.client.shown, Next(s, actions[0]).client.shown, Run(s, actions).client.shown);
    }
  }

  lemma KeptTransitive(a: Reviews, b: Reviews, c: Reviews)
    requires Kept(a, b) && Kept(b, c)
    ensures Kept(a, c)
  {
    forall i | 0 <= i < |a| ensures Known(a[i], c) {
      var j :| 0 <= j < |b| && S.Firmer(a[i], b[j]);
      var k :| 0 <= k < |c| && S.Firmer(b[j], c[k]);
      assert S.Firmer(a[i], c[k]);
    }
  }

  /**
   From any moment of a session to any later one: what was shown is still shown, a review shown as
   decided is shown exactly so, and no review is shown twice.
   */
  lemma ShownNeverGoesBack(me: Actor, table: Table, before: seq<Action>, after: seq<Action>)
    requires UniqueIds(table)
    ensures var s := Run(Initial(me, table), before);
            var t := Run(s, after);
            (forall v :: v in s.client.shown ==> exists w :: w in t.client.shown && S.Firmer(v, w))
            && (forall v :: v in s.client.shown && !v.status.PENDING? ==> v in t.client.shown)
            && UniqueIds(t.client.shown)
  {
    InitialOk(me, table);
    RunKeepsInv(Initial(me, table), before);
    var s := Run(Initial(me, table), before);
    RunKeepsInv(s, after);
    var t := Run(s, after);
    hide Inv;
    forall v | v in s.client.shown ensures (exists w :: w in t.client.shown && S.Firmer(v, w))
        && (!v.status.PENDING? ==> v in t.client.shown) {
      var i :| 0 <= i < |s.client.shown| && s.client.shown[i] == v;
      var j :| 0 <= j < |t.client.shown| && S.Firmer(v, t.client.shown[j]);
      assert t.client.shown[j] in t.client.shown;
    }
    ShownUnique(t);
  }

  lemma ShownUnique(s: State)
    requires Inv(s)
    ensures UniqueIds(s.client.shown)
  {
  }

  /** Any two reads that were shown: one had been answered before the other began, and is not newer. */
  lemma ShownReadsAreDisjoint(me: Actor, table: Table, actions: seq<Action>, i: nat, j: nat)
    requires UniqueIds(table) && i < j < |Run(Initial(me, table), actions).log.applied|
    ensures var applied := Run(Initial(me, table), actions).log.applied;
            applied[i].started < applied[i].ended < applied[j].started < applied[j].ended
                && applied[i].version <= applied[j].version
  {
    InitialOk(me, table);
    RunKeepsInv(Initial(me, table), actions);
  }
}

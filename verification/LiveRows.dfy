/**
 Which rows of the table a review session shows, and as they were when: every write moves one row, and
 the rows shown are the server's exactly when each was received since it last moved.
 */
module LiveRows {
  import opened Wrappers
  import opened ReviewClient
  import opened ReviewTable
  import opened ReviewLive
  import opened LiveSafety
  import opened LiveConvergence
  import S = ReviewStore

  // ----- every write moves one row

  /** Row `at` is new, or was pending and is decided; every other row is as it was. */
  ghost predicate Moves(t: Table, u: Table, at: nat, touched: string) {
    at < |u| && u[at].researcherId == touched
    && (if at < |t| then |u| == |t| && t[at].status.PENDING? && !u[at].status.PENDING? else |u| == |t| + 1)
    && forall i :: 0 <= i < |t| && i != at ==> u[i] == t[i]
  }

  ghost predicate MovesOk(versions: seq<Version>) {
    forall k :: 0 < k < |versions| ==>
      Moves(versions[k - 1].table, versions[k].table, versions[k].at, versions[k].touched)
  }

  lemma WriteMoves(t: Table, w: Write)
    requires WriteOk(t, w)
    ensures Moves(t, Applied(t, w), RowOf(t, w), w.review.researcherId)
  {
  }

  /** Some version after `a`, up to `b`, moved row `i`. */
  ghost predicate MovedSince(versions: seq<Version>, a: nat, b: nat, i: nat) {
    exists k :: a < k <= b && k < |versions| && versions[k].at == i
  }

  /** A row differs between two versions if and only if one between them moved it. */
  lemma {:induction false} RowMoved(versions: seq<Version>, a: nat, b: nat, i: nat)
    requires VersionsOk(versions) && MovesOk(versions) && a <= b < |versions| && i < |versions[b].table|
    ensures (i < |versions[a].table| && versions[a].table[i] == versions[b].table[i]) <==>
        !MovedSince(versions, a, b, i)
    decreases b - a
  {
    if a < b {
      var t, u := versions[b - 1].table, versions[b].table;
      assert Moves(t, u, versions[b].at, versions[b].touched);
      assert Extends(versions[a].table, t);
      if versions[b].at == i {
        assert MovedSince(versions, a, b, i);
        if i < |versions[a].table| { assert S.Firmer(versions[a].table[i], t[i]); }
      } else {
        RowMoved(versions, a, b - 1, i);
        assert MovedSince(versions, a, b, i) <==> MovedSince(versions, a, b - 1, i);
      }
    }
  }

  // ----- what is shown is what was received

  /** Row `i` as it was last received. */
  ghost predicate IsReceived(versions: seq<Version>, seen: map<nat, nat>, i: nat, v: Row) {
    i in seen && seen[i] < |versions| && i < |versions[seen[i]].table| && versions[seen[i]].table[i] == v
  }

  ghost predicate SeenShown(me: Actor, versions: seq<Version>, shown: Reviews, seen: map<nat, nat>) {
    forall i :: i in seen ==>
        seen[i] < |versions| && i < |versions[seen[i]].table| && InScope(me, versions[seen[i]].table[i])
                              && versions[seen[i]].table[i] in shown
  }

  ghost predicate ShownSeen(versions: seq<Version>, shown: Reviews, seen: map<nat, nat>) {
    forall v :: v in shown ==> exists i :: IsReceived(versions, seen, i, v)
  }

  ghost predicate SeenOk(me: Actor, versions: seq<Version>, shown: Reviews, seen: map<nat, nat>) {
    SeenShown(me, versions, shown, seen) && ShownSeen(versions, shown, seen)
  }

  /** Every row of the actor's list was received at or after the write that last moved it. */
  ghost predicate UpToDate(me: Actor, versions: seq<Version>, seen: map<nat, nat>)
    requires |versions| > 0
  {
    var last := |versions| - 1;
    forall i :: 0 <= i < |versions[last].table| && InScope(me, versions[last].table[i]) ==>
      i in seen && !MovedSince(versions, seen[i], last, i)
  }

  /** The same reviews in the same states; a list patched by hand may have them in another order. */
  ghost predicate SameReviews(shown: Reviews, list: Reviews) {
    forall v :: v in shown <==> v in list
  }

  lemma LaterVersion(versions: seq<Version>, a: nat)
    requires VersionsOk(versions) && a < |versions|
    ensures Extends(versions[a].table, versions[|versions| - 1].table) && UniqueIds(versions[|versions| - 1].table)
  {
  }

  lemma ReceivedIsCurrent(me: Actor, versions: seq<Version>, shown: Reviews, seen: map<nat, nat>, i: nat)
    requires VersionsOk(versions) && MovesOk(versions) && SeenOk(me, versions, shown, seen) && i in seen
    ensures seen[i] < |versions| && i < |versions[seen[i]].table|
    ensures var t, v := versions[|versions| - 1].table, versions[seen[i]].table[i];
            i < |t| && InScope(me, t[i]) && InScope(me, v) && v in shown && v.id == t[i].id
            && (v == t[i] <==> !MovedSince(versions, seen[i], |versions| - 1, i))
  {
    hide VersionsOk, MovesOk, MovedSince, UniqueIds;
    LaterVersion(versions, seen[i]);
    assert S.Firmer(versions[seen[i]].table[i], versions[|versions| - 1].table[i]);
    RowMoved(versions, seen[i], |versions| - 1, i);
  }

  lemma ShownWasReceived(me: Actor, versions: seq<Version>, shown: Reviews, seen: map<nat, nat>,
      v: Row) returns (i: nat)
    requires SeenOk(me, versions, shown, seen) && v in shown
    ensures IsReceived(versions, seen, i, v)
  {
    i :| IsReceived(versions, seen, i, v);
  }

  lemma UpToDateShows(me: Actor, versions: seq<Version>, shown: Reviews, seen: map<nat, nat>, v: Row)
    requires VersionsOk(versions) && MovesOk(versions) && SeenOk(me, versions, shown, seen)
        && UpToDate(me, versions, seen)
    ensures v in shown <==> v in versions[|versions| - 1].table && InScope(me, v)
  {
    var t := versions[|versions| - 1].table;
    hide VersionsOk, MovesOk, MovedSince, SeenOk, InScope;
    if v in shown {
      var i := ShownWasReceived(me, versions, shown, seen, v);
      ReceivedIsCurrent(me, versions, shown, seen, i);
      assert t[i] in t;
    }
    if v in t && InScope(me, v) {
      var i :| 0 <= i < |t| && t[i] == v;
      ReceivedIsCurrent(me, versions, shown, seen, i);
    }
  }

  lemma ShownIsUpToDate(me: Actor, versions: seq<Version>, shown: Reviews, seen: map<nat, nat>, i: nat)
    requires VersionsOk(versions) && MovesOk(versions) && SeenOk(me, versions, shown, seen)
    requires i < |versions[|versions| - 1].table| && versions[|versions| - 1].table[i] in shown
    ensures i in seen && !MovedSince(versions, seen[i], |versions| - 1, i)
  {
    var t := versions[|versions| - 1].table;
    hide VersionsOk, MovesOk, MovedSince, SeenOk, InScope;
    LaterVersion(versions, |versions| - 1);
    var j := ShownWasReceived(me, versions, shown, seen, t[i]);
    ReceivedIsCurrent(me, versions, shown, seen, j);
    assert i == j;
  }

  /** The rows shown are the rows of the server's list if and only if each was received since it last moved. */
  lemma SameReviewsExactly(me: Actor, versions: seq<Version>, shown: Reviews, seen: map<nat, nat>)
    requires |versions| > 0 && VersionsOk(versions) && MovesOk(versions) && SeenOk(me, versions, shown, seen)
    ensures SameReviews(shown, ListFor(me, versions[|versions| - 1].table)) <==> UpToDate(me, versions, seen)
  {
    hide VersionsOk, MovesOk, SeenOk, SameReviews, UpToDate, ListFor;
    if UpToDate(me, versions, seen) { UpToDateIsSame(me, versions, shown, seen); }
    if SameReviews(shown, ListFor(me, versions[|versions| - 1].table)) { SameIsUpToDate(me, versions, shown, seen); }
  }

  lemma UpToDateIsSame(me: Actor, versions: seq<Version>, shown: Reviews, seen: map<nat, nat>)
    requires |versions| > 0 && VersionsOk(versions) && MovesOk(versions) && SeenOk(me, versions, shown, seen)
        && UpToDate(me, versions, seen)
    ensures SameReviews(shown, ListFor(me, versions[|versions| - 1].table))
  {
    hide VersionsOk, MovesOk, SeenOk, UpToDate, ListFor, InScope;
    LaterVersion(versions, |versions| - 1);
    ListContains(me, versions[|versions| - 1].table);
    forall v ensures v in shown <==> v in ListFor(me, versions[|versions| - 1].table) {
      UpToDateShows(me, versions, shown, seen, v);
    }
  }

  lemma SameIsUpToDate(me: Actor, versions: seq<Version>, shown: Reviews, seen: map<nat, nat>)
    requires |versions| > 0 && VersionsOk(versions) && MovesOk(versions) && SeenOk(me, versions, shown, seen)
    requires SameReviews(shown, ListFor(me, versions[|versions| - 1].table))
    ensures UpToDate(me, versions, seen)
  {
    hide VersionsOk, MovesOk, SeenOk, ListFor, InScope, MovedSince;
    var t := versions[|versions| - 1].table;
    LaterVersion(versions, |versions| - 1);
    ListContains(me, t);
    forall i | 0 <= i < |t| && InScope(me, t[i]) ensures i in seen
        && !MovedSince(versions, seen[i], |versions| - 1, i) {
      assert t[i] in t;
      assert t[i] in ListFor(me, t);
      ShownIsUpToDate(me, versions, shown, seen, i);
    }
  }

  lemma NewsOutdates(me: Actor, versions: seq<Version>, a: nat)
    requires VersionsOk(versions) && MovesOk(versions) && a < |versions| && !Fresh(me, versions, a)
    ensures !UpToDate(me, versions, Received(me, versions[a].table, a))
  {
    var k :| a < k < |versions| && Concerns(me, versions[k].touched);
    AnnouncedMoves(me, versions, a, k);
    hide VersionsOk, MovesOk, MovedSince, Concerns;
    var seen := Received(me, versions[a].table, a);
    assert versions[k].at in seen ==> seen[versions[k].at] == a;
  }

  lemma FreshUpToDate(me: Actor, versions: seq<Version>, a: nat)
    requires VersionsOk(versions) && MovesOk(versions) && a < |versions| && Fresh(me, versions, a)
    ensures UpToDate(me, versions, Received(me, versions[a].table, a))
  {
    var last, seen := |versions| - 1, Received(me, versions[a].table, a);
    hide VersionsOk, MovesOk, MovedSince, Fresh;
    forall i | 0 <= i < |versions[last].table| && InScope(me, versions[last].table[i])
      ensures i in seen && !MovedSince(versions, a, last, i)
    {
      RowMoved(versions, a, last, i);
      UnannouncedStays(me, versions, a, i);
    }
  }

  /** A loaded list is up to date if and only if no write announced to the actor came after it. */
  lemma SnapshotUpToDate(me: Actor, versions: seq<Version>, a: nat)
    requires VersionsOk(versions) && MovesOk(versions) && a < |versions|
    ensures UpToDate(me, versions, Received(me, versions[a].table, a)) <==> Fresh(me, versions, a)
  {
    if Fresh(me, versions, a) {
      FreshUpToDate(me, versions, a);
    } else {
      NewsOutdates(me, versions, a);
    }
  }

  /** A write announced to an actor moves a row of that actor's list. */
  lemma AnnouncedMoves(me: Actor, versions: seq<Version>, a: nat, k: nat)
    requires VersionsOk(versions) && MovesOk(versions) && a < k < |versions| && Concerns(me, versions[k].touched)
    ensures var (i, last) := (versions[k].at, |versions| - 1);
            i < |versions[last].table| && InScope(me, versions[last].table[i]) && MovedSince(versions, a, last, i)
  {
    var i, last := versions[k].at, |versions| - 1;
    assert Moves(versions[k - 1].table, versions[k].table, i, versions[k].touched);
    LaterVersion(versions, k);
    assert S.Firmer(versions[k].table[i], versions[last].table[i]);
  }

  lemma MovesAreAnnounced(me: Actor, versions: seq<Version>, i: nat, k: nat)
    requires VersionsOk(versions) && MovesOk(versions) && 0 < k < |versions| && versions[k].at == i
    requires i < |versions[|versions| - 1].table| && InScope(me, versions[|versions| - 1].table[i])
    ensures Concerns(me, versions[k].touched)
  {
    assert Moves(versions[k - 1].table, versions[k].table, i, versions[k].touched);
    LaterVersion(versions, k);
    assert S.Firmer(versions[k].table[i], versions[|versions| - 1].table[i]);
  }

  lemma UnannouncedStays(me: Actor, versions: seq<Version>, a: nat, i: nat)
    requires VersionsOk(versions) && MovesOk(versions) && a < |versions| && Fresh(me, versions, a)
    requires i < |versions[|versions| - 1].table| && InScope(me, versions[|versions| - 1].table[i])
    ensures !MovedSince(versions, a, |versions| - 1, i)
  {
    if MovedSince(versions, a, |versions| - 1, i) {
      var k :| a < k <= |versions| - 1 && k < |versions| && versions[k].at == i;
      MovesAreAnnounced(me, versions, i, k);
    }
  }

  /** Rows were received at versions up to `floor`. */
  ghost predicate SeenBy(seen: map<nat, nat>, floor: nat) {
    forall i :: i in seen ==> seen[i] <= floor
  }

  // ----- every step keeps what was received

  ghost predicate SeenIsLoaded(me: Actor, versions: seq<Version>, shownAt: Option<nat>, seen: map<nat, nat>) {
    shownAt.Some? ==>
      shownAt.value < |versions| && seen == Received(me, versions[shownAt.value].table, shownAt.value)
  }

  ghost predicate RowsKnown(s: State) {
    MovesOk(s.versions) && SeenOk(s.me, s.versions, s.client.shown, s.log.seen)
    && SeenIsLoaded(s.me, s.versions, s.log.shownAt, s.log.seen) && SeenBy(s.log.seen, s.log.floor)
  }

  lemma LoadedIsSeen(me: Actor, versions: seq<Version>, k: nat)
    requires VersionsOk(versions) && k < |versions|
    ensures SeenOk(me, versions, ListFor(me, versions[k].table), Received(me, versions[k].table, k))
  {
    var t, seen := versions[k].table, Received(me, versions[k].table, k);
    ListContains(me, t);
    hide ListFor, VersionsOk, InScope, SeenShown;
    assert SeenShown(me, versions, ListFor(me, t), seen) by { LoadedRowsShown(me, versions, k, ListFor(me, t)); }
    forall v | v in ListFor(me, t) ensures exists i :: IsReceived(versions, seen, i, v) {
      var i :| 0 <= i < |t| && t[i] == v;
      assert IsReceived(versions, seen, i, v);
    }
  }

  lemma LoadedRowsShown(me: Actor, versions: seq<Version>, k: nat, list: Reviews)
    requires k < |versions| && forall v :: v in list <==> v in versions[k].table && InScope(me, v)
    ensures SeenShown(me, versions, list, Received(me, versions[k].table, k))
  {
    hide InScope;
    forall i: nat | i < |versions[k].table| && InScope(me, versions[k].table[i]) ensures versions[k].table[i] in list {
      assert versions[k].table[i] in versions[k].table;
    }
  }

  lemma GrownKeepsSeen(me: Actor, versions: seq<Version>, shown: Reviews, seen: map<nat, nat>, v: Version)
    requires SeenOk(me, versions, shown, seen)
    ensures SeenOk(me, versions + [v], shown, seen)
  {
    var all := versions + [v];
    forall w | w in shown ensures exists i :: IsReceived(all, seen, i, w) {
      var i :| IsReceived(versions, seen, i, w);
      assert IsReceived(all, seen, i, w);
    }
  }

  lemma SubmittedIsSeen(me: Actor, versions: seq<Version>, shown: Reviews, seen: map<nat, nat>, at: nat, k: nat)
    requires SeenOk(me, versions, shown, seen) && VersionsOk(versions) && 0 < k < |versions| && SeenBy(seen, k - 1)
    requires |versions[k - 1].table| <= at < |versions[k].table| && InScope(me, versions[k].table[at])
    ensures SeenOk(me, versions, [versions[k].table[at]] + shown, seen[at := k])
  {
    forall i | i in seen ensures i != at { SeenIsOld(me, versions, shown, seen, i, k); }
    hide VersionsOk, InScope, ShownSeen, SeenShown;
    AddedSeenShown(me, versions, shown, seen, at, k);
    AddedShownSeen(versions, shown, seen, at, k);
  }

  lemma AddedSeenShown(me: Actor, versions: seq<Version>, shown: Reviews, seen: map<nat, nat>, at: nat, k: nat)
    requires SeenShown(me, versions, shown, seen) && k < |versions| && at < |versions[k].table|
        && InScope(me, versions[k].table[at])
    ensures SeenShown(me, versions, [versions[k].table[at]] + shown, seen[at := k])
  {
    hide InScope;
  }

  lemma AddedShownSeen(versions: seq<Version>, shown: Reviews, seen: map<nat, nat>, at: nat, k: nat)
    requires ShownSeen(versions, shown, seen) && at !in seen && k < |versions| && at < |versions[k].table|
    ensures ShownSeen(versions, [versions[k].table[at]] + shown, seen[at := k])
  {
    var all, later := [versions[k].table[at]] + shown, seen[at := k];
    forall v | v in all ensures exists i :: IsReceived(versions, later, i, v) {
      if v in shown {
        var i :| IsReceived(versions, seen, i, v);
        assert IsReceived(versions, later, i, v);
      } else {
        assert IsReceived(versions, later, at, v);
      }
    }
  }

  lemma SeenIsOld(me: Actor, versions: seq<Version>, shown: Reviews, seen: map<nat, nat>, i: nat, k: nat)
    requires VersionsOk(versions) && SeenOk(me, versions, shown, seen) && i in seen && seen[i] < k < |versions|
    ensures i < |versions[k - 1].table|
  {
    assert Extends(versions[seen[i]].table, versions[k - 1].table);
  }

  lemma DecidedIsSeen(me: Actor, versions: seq<Version>, shown: Reviews, seen: map<nat, nat>, at: nat, k: nat)
    requires SeenOk(me, versions, shown, seen) && VersionsOk(versions) && k < |versions| && SeenBy(seen, k)
    requires at < |versions[k].table| && InScope(me, versions[k].table[at])
    ensures SeenOk(me, versions, Patched(shown, versions[k].table[at]), if at in seen then seen[at := k] else seen)
  {
    forall i | i in seen ensures versions[seen[i]].table[i].id == versions[k].table[at].id <==> i == at {
      SeenId(me, versions, shown, seen, i, at, k);
    }
    hide VersionsOk;
    PatchedSeenShown(me, versions, shown, seen, at, k);
    PatchedShownSeen(versions, shown, seen, at, k);
  }

  /** Only row `at` has the identifier of row `at`. */
  ghost predicate OnlyRow(versions: seq<Version>, seen: map<nat, nat>, at: nat, id: nat) {
    forall i :: i in seen && seen[i] < |versions| && i < |versions[seen[i]].table| ==>
      (versions[seen[i]].table[i].id == id <==> i == at)
  }

  lemma PatchedSeenShown(me: Actor, versions: seq<Version>, shown: Reviews, seen: map<nat, nat>, at: nat, k: nat)
    requires SeenShown(me, versions, shown, seen) && k < |versions| && at < |versions[k].table|
        && InScope(me, versions[k].table[at])
    requires OnlyRow(versions, seen, at, versions[k].table[at].id)
    ensures SeenShown(me, versions, Patched(shown, versions[k].table[at]), if at in seen then seen[at := k] else seen)
  {
    hide InScope;
    var row, all := versions[k].table[at], Patched(shown, versions[k].table[at]);
    forall i | i in seen ensures (if i == at then row else versions[seen[i]].table[i]) in all {
      var j :| 0 <= j < |shown| && shown[j] == versions[seen[i]].table[i];
      assert all[j] in all;
    }
  }

  lemma PatchedShownSeen(versions: seq<Version>, shown: Reviews, seen: map<nat, nat>, at: nat, k: nat)
    requires ShownSeen(versions, shown, seen) && k < |versions| && at < |versions[k].table|
    requires OnlyRow(versions, seen, at, versions[k].table[at].id)
    ensures ShownSeen(versions, Patched(shown, versions[k].table[at]), if at in seen then seen[at := k] else seen)
  {
    var all, later := Patched(shown, versions[k].table[at]), if at in seen then seen[at := k] else seen;
    forall v | v in all ensures exists i :: IsReceived(versions, later, i, v) {
      var j :| 0 <= j < |all| && all[j] == v;
      assert shown[j] in shown;
      var i :| IsReceived(versions, seen, i, shown[j]);
      assert IsReceived(versions, later, i, v);
    }
  }

  lemma SeenId(me: Actor, versions: seq<Version>, shown: Reviews, seen: map<nat, nat>, i: nat, at: nat, k: nat)
    requires VersionsOk(versions) && SeenOk(me, versions, shown, seen) && i in seen && seen[i] <= k < |versions|
        && at < |versions[k].table|
    ensures versions[seen[i]].table[i].id == versions[k].table[at].id <==> i == at
  {
    assert Extends(versions[seen[i]].table, versions[k].table) && UniqueIds(versions[k].table);
    assert S.Firmer(versions[seen[i]].table[i], versions[k].table[i]);
    hide VersionsOk;
  }

  lemma ShowKeepsRows(s: State, t: State, k: nat)
    requires VersionsOk(s.versions) && MovesOk(s.versions) && k <= V(s) && t.me == s.me && t.versions == s.versions
    requires t.client.shown == ListFor(s.me, TableAt(s, k)) && t.log.seen == Received(s.me, TableAt(s, k), k)
    requires t.log.shownAt == Some(k) && t.log.floor == V(s)
    ensures RowsKnown(t)
  {
    assert |s.versions| > 0;
    hide VersionsOk, MovesOk, ListFor, SeenShown, ShownSeen;
    LoadedIsSeen(s.me, s.versions, k);
  }

  lemma PatchKeepsRows(s: State, t: State, k: nat, task: Task)
    requires VersionsOk(s.versions) && RowsKnown(s) && task.Writing? && AnswerOk(s, k, task) && s.log.floor < k <= V(s)
    requires t.me == s.me && t.versions == s.versions && t.log.shownAt == None && t.log.floor == V(s)
    requires var row := TableAt(s, k)[task.at];
             t.client.shown == if task.request.SubmitRun? then [row] + s.client.shown else Patched(s.client.shown, row)
    requires t.log.seen == Answered(s.log.seen, task.request, task.at, k)
    ensures RowsKnown(t)
  {
    hide VersionsOk, MovesOk, SeenOk, InScope, Patched;
    if task.request.SubmitRun? {
      SubmittedIsSeen(s.me, s.versions, s.client.shown, s.log.seen, task.at, k);
    } else {
      DecidedIsSeen(s.me, s.versions, s.client.shown, s.log.seen, task.at, k);
    }
  }

  lemma FinishKeepsRows(s: State)
    requires Inv(s) && RowsKnown(s)
    ensures RowsKnown(Ticked(s, FinishTask(s)))
  {
    hide ShownOk, ReadsStamped, ReadOrdered, LogOk, ClientOk, RowsKnown, VersionsOk;
    if s.task.Some? && s.task.value.stamp.served.Some? {
      var k := s.task.value.stamp.served.value;
      assert MovesOk(s.versions) by { KnownMoves(s); }
      if s.task.value.Loading? {
        hide Received, ListFor;
        ShowKeepsRows(s, Ticked(s, FinishTask(s)), k);
      } else if k !in s.unpublished {
        PatchedState(s, k, s.task.value);
        hide FinishTask, Answered, Patched;
        PatchKeepsRows(s, Ticked(s, FinishTask(s)), k, s.task.value);
      } else {
        SameKeepsRows(s, Ticked(s, s));
      }
    } else {
      SameKeepsRows(s, Ticked(s, s));
    }
  }

  lemma KnownMoves(s: State)
    requires RowsKnown(s)
    ensures MovesOk(s.versions)
  {
  }

  lemma SameKeepsRows(s: State, t: State)
    requires RowsKnown(s) && SameList(s, t) && t.versions == s.versions
    ensures RowsKnown(t)
  {
  }

  lemma AnswerKeepsRows(s: State, n: nat)
    requires Inv(s) && RowsKnown(s)
    ensures RowsKnown(Ticked(s, AnswerRead(s, n)))
  {
    hide ShownOk, ReadOrdered, LogOk, ClientOk, TaskOk, RowsKnown, VersionsOk, Received, ListFor;
    assert MovesOk(s.versions) by { KnownMoves(s); }
    if n in s.live && s.live[n].served.Some? && Applies(s.client, n) {
      ShowKeepsRows(s, Ticked(s, AnswerRead(s, n)), s.live[n].served.value);
    } else {
      SameKeepsRows(s, Ticked(s, AnswerRead(s, n)));
    }
  }

  lemma PersistKeepsRows(s: State, t: State, w: Write)
    requires RowsKnown(s) && |s.versions| > 0 && WriteOk(Top(s), w) && t.versions == Persist(s, w).versions
        && SameList(s, t)
    ensures RowsKnown(t)
  {
    WriteMoves(Top(s), w);
    hide Applied, WriteOk, SeenOk, Received;
    GrownKeepsSeen(s.me, s.versions, s.client.shown, s.log.seen,
        Version(Applied(Top(s), w), w.review.researcherId, RowOf(Top(s), w)));
  }

  /** The only steps that make a version are writes the table allows. */
  lemma Written(s: State, a: Action) returns (w: Option<Write>)
    ensures w.None? ==> Next(s, a).versions == s.versions
    ensures w.Some? ==> WriteOk(Top(s), w.value) && Next(s, a).versions == Persist(s, w.value).versions
  {
    hide WriteOk, Applied, Top, RowOf;
    w := None;
    if s.ended {
    } else if a.WriteBySomeone? {
      if WriteOk(Top(s), a.write) { w := Some(a.write); }
    } else if a.ServeWrite? {
      if s.task.Some? && Asked(s, s.task.value, a.write) { w := Some(a.write); }
    } else {
      hide Next;
      OthersKeepVersions(s, a);
    }
  }

  lemma NextKeepsRows(s: State, a: Action)
    requires Inv(s) && RowsKnown(s)
    ensures RowsKnown(Next(s, a))
  {
    hide RowsKnown, Inv, SameList, WriteOk;
    if s.ended {
    } else if a.TaskDone? {
      FinishKeepsRows(s);
    } else if a.Answer? {
      AnswerKeepsRows(s, a.read);
    } else {
      NextKeepsShown(s, a);
      var w := Written(s, a);
      hide Next;
      if w.Some? {
        VersionsAreOk(s);
        PersistKeepsRows(s, Next(s, a), w.value);
      } else {
        SameKeepsRows(s, Next(s, a));
      }
    }
  }
}

/**
 The run_reviews table as a client sees it: rows in insertion order, writes that add a pending row or
 decide one (module ReviewStore), and the list each actor is sent (module ReviewQuery).
 */
module ReviewTable {
  import opened Wrappers
  import S = ReviewStore
  import Q = ReviewQuery

  type Table = seq<S.Review>

  type Actor = Q.Actor

  type Row = S.Review

  datatype Write = Submit(review: S.Review) | Decide(index: nat, review: S.Review)

  /** `touched` is the researcher whose review the write that made this version concerned, `at` its row. */
  datatype Version = Version(table: Table, touched: string, at: nat)

  predicate WriteOk(t: Table, w: Write) {
    match w
    case Submit(v) => v.status.PENDING? && forall i :: 0 <= i < |t| ==> t[i].id != v.id && t[i].runId != v.runId
    case Decide(i, v) =>
      i < |t| && t[i].status.PENDING? && !v.status.PENDING?
      && v == t[i].(status := v.status, feedback := v.feedback, reviewerId := v.reviewerId, decidedAt := v.decidedAt)
  }

  function Applied(t: Table, w: Write): Table {
    match w
    case Submit(v) => t + [v]
    case Decide(i, v) => if i < |t| then t[i := v] else t
  }

  /** The row a write returns. */
  function RowOf(t: Table, w: Write): nat {
    match w
    case Submit(_) => |t|
    case Decide(i, _) => i
  }

  predicate AlreadyDecided(t: Table, id: nat) {
    exists i :: 0 <= i < |t| && t[i].id == id && !t[i].status.PENDING?
  }

  function ListFor(me: Actor, t: Table): seq<S.Review> {
    Q.List(me, t, Q.Options(None, None, None))
  }

  predicate InScope(me: Actor, v: S.Review) {
    me.Researcher? ==> v.researcherId == me.id
  }

  /** Whether a write about this researcher's review is announced to `me`. */
  predicate Concerns(me: Actor, researcherId: string) {
    me.Reviewer? || me.id == researcherId
  }

  // ----- how a table grows

  ghost predicate Extends(t: Table, u: Table) {
    |t| <= |u| && forall i :: 0 <= i < |t| ==> S.Firmer(t[i], u[i])
  }

  ghost predicate UniqueIds(t: Table) {
    forall i, j :: 0 <= i < j < |t| ==> t[i].id != t[j].id
  }

  /** Only rows of `researcherId` differ. */
  ghost predicate Touches(t: Table, u: Table, researcherId: string) {
    |t| <= |u| && forall i :: 0 <= i < |u| ==>
      ((i < |t| && u[i] == t[i]) || (u[i].researcherId == researcherId
          && (i < |t| ==> t[i].researcherId == researcherId)))
  }

  lemma WriteGrows(t: Table, w: Write)
    requires UniqueIds(t) && WriteOk(t, w)
    ensures var u := Applied(t, w); Extends(t, u) && UniqueIds(u) && Touches(t, u, w.review.researcherId)
    ensures var u := Applied(t, w); RowOf(t, w) < |u| && u[RowOf(t, w)] == w.review
  {
  }

  lemma ExtendsTransitive(t: Table, u: Table, w: Table)
    requires Extends(t, u) && Extends(u, w)
    ensures Extends(t, w)
  {
    forall i | 0 <= i < |t| ensures S.Firmer(t[i], w[i]) {
      assert S.Firmer(t[i], u[i]) && S.Firmer(u[i], w[i]);
    }
  }

  // ----- what an actor's list contains

  lemma TableIsMultiset(t: Table)
    requires UniqueIds(t)
    ensures Q.DistinctIds(multiset(t))
  {
    forall v ensures multiset(t)[v] <= 1 { UniqueCount(t, v); }
    forall v, w: S.Review | v in multiset(t) && w in multiset(t) && v.id == w.id ensures v == w {
      assert v in t && w in t;
      var i :| 0 <= i < |t| && t[i] == v;
      var j :| 0 <= j < |t| && t[j] == w;
    }
  }

  lemma {:induction false} UniqueCount(t: Table, v: S.Review)
    requires UniqueIds(t)
    ensures multiset(t)[v] <= 1
  {
    if t == [] {
    } else {
      assert t == [t[0]] + t[1..];
      UniqueCount(t[1..], v);
      forall j | 0 <= j < |t[1..]| ensures t[1..][j] != t[0] {
        assert t[1..][j].id == t[j + 1].id;
      }
      assert t[0] !in multiset(t[1..]);
    }
  }

  /** The list is the rows in scope, each once. */
  lemma ListContains(me: Actor, t: Table)
    requires UniqueIds(t)
    ensures forall v :: v in ListFor(me, t) <==> v in t && InScope(me, v)
    ensures UniqueIds(ListFor(me, t))
  {
    TableIsMultiset(t);
    Q.ListingIsExact(t, Q.Scope(me), None);
    var list := ListFor(me, t);
    forall v ensures v in list <==> v in t && InScope(me, v) {
      assert v in list <==> v in t && Q.Wanted(v, Q.Scope(me), None);
    }
  }

  lemma {:induction false} SameScopeSameRows(id: string, t: Table, u: Table, touched: string)
    requires id != touched && Touches(t, u, touched)
    ensures Q.WhereResearcher(t, id) == Q.WhereResearcher(u, id)
    decreases |u|
  {
    if t == [] {
      NoneMine(id, u);
    } else {
      assert u[0] == t[0] || (u[0].researcherId == touched && t[0].researcherId == touched);
      assert Touches(t[1..], u[1..], touched) by {
        forall i | 0 <= i < |u[1..]|
          ensures (i < |t[1..]| && u[1..][i] == t[1..][i]) || (u[1..][i].researcherId == touched
              && (i < |t[1..]| ==> t[1..][i].researcherId == touched))
        {
          assert u[1..][i] == u[i + 1];
        }
      }
      SameScopeSameRows(id, t[1..], u[1..], touched);
    }
  }

  lemma {:induction false} NoneMine(id: string, t: Table)
    requires forall i :: 0 <= i < |t| ==> t[i].researcherId != id
    ensures Q.WhereResearcher(t, id) == []
  {
    if t == [] {
    } else {
      assert t[0].researcherId != id;
      NoneMine(id, t[1..]);
    }
  }

  /** A write that is not announced to an actor does not change that actor's list. */
  lemma UnannouncedChangesNothing(me: Actor, t: Table, u: Table, touched: string)
    requires Touches(t, u, touched) && !Concerns(me, touched)
    ensures ListFor(me, t) == ListFor(me, u)
  {
    SameScopeSameRows(me.id, t, u, touched);
  }

  // ----- the statements of the store, seen as writes of this table

  /** The rows with an id below `n`, in the order they were inserted. */
  function Rows(s: S.Store, n: nat): Table {
    if n == 0 then [] else Rows(s, n - 1) + (if n - 1 in s.reviews then [s.reviews[n - 1]] else [])
  }

  function TableOf(s: S.Store): Table {
    Rows(s, s.nextReview)
  }

  lemma {:induction false} RowsAreReviews(s: S.Store, n: nat)
    requires S.StoreOk(s)
    ensures forall i :: 0 <= i < |Rows(s, n)| ==>
        Rows(s, n)[i].id < n && Rows(s, n)[i].id in s.reviews && s.reviews[Rows(s, n)[i].id] == Rows(s, n)[i]
    ensures forall v :: v in s.reviews && v < n ==> s.reviews[v] in Rows(s, n)
    ensures UniqueIds(Rows(s, n))
  {
    if n == 0 {
    } else {
      RowsAreReviews(s, n - 1);
    }
  }

  lemma {:induction false} SameRows(s: S.Store, t: S.Store, n: nat)
    requires forall v :: v < n ==>
        (v in s.reviews <==> v in t.reviews) && (v in s.reviews ==> t.reviews[v] == s.reviews[v])
    ensures Rows(t, n) == Rows(s, n)
  {
    if n == 0 {
    } else {
      SameRows(s, t, n - 1);
    }
  }

  lemma {:induction false} UpdatedRows(s: S.Store, t: S.Store, id: nat, n: nat) returns (i: nat)
    requires S.StoreOk(s) && id in s.reviews && id < n && t.reviews.Keys == s.reviews.Keys
    requires forall v :: v in s.reviews && v != id ==> t.reviews[v] == s.reviews[v]
    ensures i < |Rows(s, n)| && Rows(s, n)[i] == s.reviews[id] && Rows(t, n) == Rows(s, n)[i := t.reviews[id]]
  {
    if id == n - 1 {
      SameRows(s, t, n - 1);
      i := |Rows(s, n - 1)|;
    } else {
      i := UpdatedRows(s, t, id, n - 1);
    }
  }

  /** A successful submission is a write of this table, and a refused one changes nothing. */
  lemma CreateReviewIsSubmit(s: S.Store, runId: nat, researcherId: string)
    requires S.StoreOk(s)
    ensures var (t, r) := S.CreateReview(s, runId, researcherId);
            if r.Ok? then WriteOk(TableOf(s), Submit(r.value)) && TableOf(t) == Applied(TableOf(s), Submit(r.value))
                && r.value.researcherId == researcherId
            else t == s
  {
    RowsAreReviews(s, s.nextReview);
    var (t, r) := S.CreateReview(s, runId, researcherId);
    if r.Ok? {
      SameRows(s, t, s.nextReview);
      forall i | 0 <= i < |TableOf(s)| ensures TableOf(s)[i].id != r.value.id && TableOf(s)[i].runId != runId {
        assert TableOf(s)[i].id in s.reviews;
      }
    }
  }

  /** A decision that returns a result is a write of this table, and one that does not changes nothing. */
  lemma DecideReviewIsDecide(s: S.Store, id: nat, status: S.Status, feedback: string, reviewerId: string, now: string)
    requires S.StoreOk(s)
    ensures var (t, r) := S.DecideReview(s, id, status, feedback, reviewerId, now);
            if r.Ok? && r.value.Some? then exists w: Write ::
                w.Decide? && w.review == r.value.value && WriteOk(TableOf(s), w) && TableOf(t) == Applied(TableOf(s), w)
            else t == s
  {
    var (t, r) := S.DecideReview(s, id, status, feedback, reviewerId, now);
    if r.Ok? && r.value.Some? {
      assert id < s.nextReview;
      var i := UpdatedRows(s, t, id, s.nextReview);
      var w := Decide(i, r.value.value);
      assert WriteOk(TableOf(s), w);
    }
  }
}

/**
 The canonical form behind the runner's request fingerprint (runner/src/app.ts:14-18, 35): members
 sorted by key at every depth. It identifies exactly the values that differ in member order only.
 */
module CanonicalJson {
  import opened JsonNumber
  import opened JsonString
  import opened Json

  // ----- the order of Array.prototype.sort on strings: by UTF-16 code unit

  predicate Before(a: Text, b: Text) {
    b != [] && (a == [] || a[0] < b[0] || (a[0] == b[0] && Before(a[1..], b[1..])))
  }

  lemma BeforeTotal(a: Text, b: Text)
    ensures a == b || Before(a, b) || Before(b, a)
  {
    if a != [] && b != [] && a[0] == b[0] {
      BeforeTotal(a[1..], b[1..]);
      assert a == [a[0]] + a[1..] && b == [b[0]] + b[1..];
    }
  }

  lemma BeforeIrreflexive(a: Text, b: Text)
    requires Before(a, b)
    ensures !Before(b, a) && a != b
  {
  }

  lemma BeforeTransitive(a: Text, b: Text, c: Text)
    requires Before(a, b) && Before(b, c)
    ensures Before(a, c)
  {
  }

  /** `a` and `b` agree up to `k`, where `a` ends or has the smaller UTF-16 unit. */
  predicate DiffersAt(a: Text, b: Text, k: nat) {
    k <= |a| && k < |b| && a[..k] == b[..k] && (k == |a| || a[k] < b[k])
  }

  /** The order of sort() without a comparator: by the first unit that differs, a prefix before the longer text. */
  lemma {:induction false} BeforeIsExact(a: Text, b: Text)
    ensures Before(a, b) <==> exists k: nat :: DiffersAt(a, b, k)
    decreases |a|
  {
    if a == [] {
      assert b != [] ==> DiffersAt(a, b, 0);
    } else if b != [] {
      BeforeIsExact(a[1..], b[1..]);
      assert a[0] < b[0] ==> DiffersAt(a, b, 0);
      forall k: nat | DiffersAt(a, b, k) ensures Before(a, b) {
        if k > 0 {
          assert a[0] == a[..k][0] && b[0] == b[..k][0];
          assert a[1..][..k - 1] == a[..k][1..] && b[1..][..k - 1] == b[..k][1..];
          assert DiffersAt(a[1..], b[1..], k - 1);
        }
      }
      if a[0] == b[0] && Before(a[1..], b[1..]) {
        var k: nat :| DiffersAt(a[1..], b[1..], k);
        assert a[..k + 1] == [a[0]] + a[1..][..k] && b[..k + 1] == [b[0]] + b[1..][..k];
        assert DiffersAt(a, b, k + 1);
      }
    }
  }

  predicate Sorted(ms: seq<Member>) {
    forall i, j :: 0 <= i < j < |ms| ==> Before(ms[i].key, ms[j].key)
  }

  function Insert(m: Member, ms: seq<Member>): (r: seq<Member>)
    ensures multiset(r) == multiset(ms) + multiset{m}
  {
    if ms == [] || !Before(ms[0].key, m.key) then [m] + ms
    else
      assert ms == [ms[0]] + ms[1..];
      [ms[0]] + Insert(m, ms[1..])
  }

  function Sort(ms: seq<Member>): (r: seq<Member>)
    ensures multiset(r) == multiset(ms)
  {
    if ms == [] then []
    else
      assert ms == [ms[0]] + ms[1..];
      Insert(ms[0], Sort(ms[1..]))
  }

  predicate Fresh(key: Text, ms: seq<Member>) {
    forall i :: 0 <= i < |ms| ==> ms[i].key != key
  }

  lemma {:induction false} InsertSorted(m: Member, ms: seq<Member>)
    requires Sorted(ms) && Fresh(m.key, ms)
    ensures Sorted(Insert(m, ms))
  {
    hide Before;
    var r := Insert(m, ms);
    if ms != [] && Before(ms[0].key, m.key) {
      InsertSorted(m, ms[1..]);
      forall x | x in Insert(m, ms[1..]) ensures Before(ms[0].key, x.key) {
        assert x in multiset(Insert(m, ms[1..]));
        assert x in ms[1..] || x == m;
      }
    } else if ms != [] {
      BeforeTotal(m.key, ms[0].key);
      forall i | 0 <= i < |ms| ensures Before(m.key, ms[i].key) {
        if i > 0 { BeforeTransitive(m.key, ms[0].key, ms[i].key); }
      }
    }
  }

  lemma {:induction false} SortSorted(ms: seq<Member>)
    requires DistinctKeys(ms)
    ensures Sorted(Sort(ms))
  {
    if ms != [] {
      SortSorted(ms[1..]);
      forall x | x in Sort(ms[1..]) ensures x.key != ms[0].key {
        assert x in multiset(Sort(ms[1..]));
      }
      InsertSorted(ms[0], Sort(ms[1..]));
    }
  }

  // ----- sorting at every depth, and canonical itself

  function SortDeep(v: Json): (r: Json)
    decreases v
  {
    match v
    case Arr(items) => Arr(SortItems(items))
    case Obj(ms) => Obj(Sort(SortValues(ms)))
    case _ => v
  }

  function SortItems(items: seq<Json>): (r: seq<Json>)
    ensures |r| == |items| && forall i :: 0 <= i < |items| ==> r[i] == SortDeep(items[i])
    decreases items
  {
    if items == [] then [] else [SortDeep(items[0])] + SortItems(items[1..])
  }

  function SortValues(ms: seq<Member>): (r: seq<Member>)
    ensures |r| == |ms| && forall i :: 0 <= i < |ms| ==> r[i] == Member(ms[i].key, SortDeep(ms[i].value))
    decreases ms
  {
    if ms == [] then [] else [Member(ms[0].key, SortDeep(ms[0].value))] + SortValues(ms[1..])
  }

  function Canonical(v: Json): Text
    requires Ok(v)
    decreases v, 1, 0
  {
    match v
    case Arr(items) => [LBRACKET] + CanonicalItems(items, v) + [RBRACKET]
    case Obj(ms) =>
      SortKeepsMembers(ms);
      [LBRACE] + CanonicalMembers(Sort(ms), v) + [RBRACE]
    case _ => Stringify(v)
  }

  function CanonicalItems(items: seq<Json>, ghost within: Json): Text
    requires forall i :: 0 <= i < |items| ==> Ok(items[i]) && items[i] < within
    decreases within, 0, |items|
  {
    if items == [] then []
    else if |items| == 1 then Canonical(items[0])
    else Canonical(items[0]) + [COMMA] + CanonicalItems(items[1..], within)
  }

  function CanonicalMembers(ms: seq<Member>, ghost within: Json): Text
    requires forall i :: 0 <= i < |ms| ==> Ok(ms[i].value) && ms[i].value < within
    decreases within, 0, |ms|
  {
    if ms == [] then []
    else
      var first := Quoted(ms[0].key) + [COLON] + Canonical(ms[0].value);
      if |ms| == 1 then first else first + [COMMA] + CanonicalMembers(ms[1..], within)
  }

  lemma SortKeepsMembers(ms: seq<Member>)
    ensures |Sort(ms)| == |ms|
    ensures forall x :: x in Sort(ms) <==> x in ms
    ensures forall i :: 0 <= i < |Sort(ms)| ==> Sort(ms)[i] in ms
  {
    assert |multiset(Sort(ms))| == |multiset(ms)|;
    forall x ensures x in Sort(ms) <==> x in ms {
      assert x in multiset(Sort(ms)) <==> x in multiset(ms);
    }
  }

  // ----- canonical prints the deeply sorted value

  lemma {:induction false} InsertCommutes(m: Member, ms: seq<Member>)
    ensures SortValues(Insert(m, ms)) == Insert(Member(m.key, SortDeep(m.value)), SortValues(ms))
  {
    if ms != [] && Before(ms[0].key, m.key) {
      InsertCommutes(m, ms[1..]);
    }
  }

  lemma {:induction false} SortCommutes(ms: seq<Member>)
    ensures SortValues(Sort(ms)) == Sort(SortValues(ms))
  {
    if ms != [] {
      SortCommutes(ms[1..]);
      InsertCommutes(ms[0], Sort(ms[1..]));
    }
  }

  lemma {:induction false} SortDeepOk(v: Json)
    requires Ok(v)
    ensures Ok(SortDeep(v))
    decreases v
  {
    match v
    case Arr(items) =>
      forall i | 0 <= i < |items| ensures Ok(SortDeep(items[i])) { SortDeepOk(items[i]); }
    case Obj(ms) =>
      forall i | 0 <= i < |ms| ensures Ok(SortDeep(ms[i].value)) { SortDeepOk(ms[i].value); }
      SortedObjOk(SortValues(ms));
    case _ =>
  }

  lemma SortedObjOk(ms: seq<Member>)
    requires Ok(Obj(ms))
    ensures Ok(Obj(Sort(ms)))
  {
    SortSorted(ms);
    SortKeepsMembers(ms);
    var r := Sort(ms);
    forall i, j | 0 <= i < j < |r| ensures r[i].key != r[j].key {
      BeforeIrreflexive(r[i].key, r[j].key);
    }
  }

  lemma {:induction false} CanonicalIsSorted(v: Json)
    requires Ok(v)
    ensures Ok(SortDeep(v)) && Canonical(v) == Stringify(SortDeep(v))
    decreases v, 1, 0
  {
    SortDeepOk(v);
    match v
    case Arr(items) => CanonicalItemsSorted(items, v);
    case Obj(ms) =>
      SortKeepsMembers(ms);
      SortCommutes(ms);
      CanonicalMembersSorted(Sort(ms), v);
    case _ =>
  }

  lemma {:induction false} CanonicalItemsSorted(items: seq<Json>, within: Json)
    requires forall i :: 0 <= i < |items| ==> Ok(items[i]) && items[i] < within
    ensures forall i :: 0 <= i < |items| ==> Ok(SortItems(items)[i])
    ensures CanonicalItems(items, within) == JoinItems(SortItems(items))
    decreases within, 0, |items|
  {
    if items != [] {
      CanonicalIsSorted(items[0]);
      CanonicalItemsSorted(items[1..], within);
      assert SortItems(items)[1..] == SortItems(items[1..]);
    }
  }

  lemma {:induction false} CanonicalMembersSorted(ms: seq<Member>, within: Json)
    requires forall i :: 0 <= i < |ms| ==> Ok(ms[i].value) && ms[i].value < within
    ensures forall i :: 0 <= i < |ms| ==> Ok(SortValues(ms)[i].value)
    ensures CanonicalMembers(ms, within) == JoinMembers(SortValues(ms))
    decreases within, 0, |ms|
  {
    if ms != [] {
      CanonicalIsSorted(ms[0].value);
      CanonicalMembersSorted(ms[1..], within);
      assert SortValues(ms)[1..] == SortValues(ms[1..]);
    }
  }

  // ----- equality up to member order

  /** Equal except that, at any depth, members may come in another order. */
  predicate Equivalent(a: Json, b: Json)
    decreases a
  {
    match a
    case Arr(xs) => b.Arr? && |xs| == |b.items| && forall i :: 0 <= i < |xs| ==> Equivalent(xs[i], b.items[i])
    case Obj(ms) => b.Obj? && |ms| == |b.members| && forall i :: 0 <= i < |ms| ==> HasMatch(ms[i], b.members)
    case _ => a == b
  }

  predicate HasMatch(m: Member, ns: seq<Member>)
    decreases m
  {
    exists j :: 0 <= j < |ns| && ns[j].key == m.key && Equivalent(m.value, ns[j].value)
  }

  lemma {:induction false} SameSortedIsEquivalent(a: Json, b: Json)
    requires SortDeep(a) == SortDeep(b)
    ensures Equivalent(a, b)
    decreases a
  {
    match a
    case Arr(xs) =>
      forall i | 0 <= i < |xs| ensures Equivalent(xs[i], b.items[i]) {
        assert SortItems(xs)[i] == SortItems(b.items)[i];
        SameSortedIsEquivalent(xs[i], b.items[i]);
      }
    case Obj(ms) =>
      var (p, q) := (SortValues(ms), SortValues(b.members));
      SortKeepsMembers(p);
      SortKeepsMembers(q);
      forall i | 0 <= i < |ms| ensures HasMatch(ms[i], b.members) {
        assert p[i] in p && p[i] in q;
        var j :| 0 <= j < |q| && q[j] == p[i];
        SameSortedIsEquivalent(ms[i].value, b.members[j].value);
      }
    case _ =>
  }

  lemma SortedPositions(p: seq<Member>, q: seq<Member>, i: nat, j: nat)
    requires Sorted(p) && Sorted(q) && |p| == |q| && forall x :: x in p ==> x in q
    requires i < |p| && j < |q| && p[i] == q[j]
    ensures i <= j
    decreases i
  {
    if i > 0 {
      assert p[i - 1] in q;
      var k :| 0 <= k < |q| && q[k] == p[i - 1];
      SortedPositions(p, q, i - 1, k);
      if j <= k { BeforeIrreflexive(p[i - 1].key, p[i].key); }
    }
  }

  lemma SortedPositionsFromEnd(p: seq<Member>, q: seq<Member>, i: nat, j: nat)
    requires Sorted(p) && Sorted(q) && |p| == |q| && forall x :: x in p ==> x in q
    requires i < |p| && j < |q| && p[i] == q[j]
    ensures j <= i
    decreases |p| - i
  {
    if i + 1 < |p| {
      assert p[i + 1] in q;
      var k :| 0 <= k < |q| && q[k] == p[i + 1];
      SortedPositionsFromEnd(p, q, i + 1, k);
      if k <= j { BeforeIrreflexive(p[i].key, p[i + 1].key); }
    }
  }

  /** A set of members with distinct keys can be sorted in one way only. */
  lemma SortedUnique(p: seq<Member>, q: seq<Member>)
    requires Sorted(p) && Sorted(q) && |p| == |q| && forall x :: x in p ==> x in q
    ensures p == q
  {
    forall i | 0 <= i < |p| ensures p[i] == q[i] {
      assert p[i] in q;
      var j :| 0 <= j < |q| && q[j] == p[i];
      SortedPositions(p, q, i, j);
      SortedPositionsFromEnd(p, q, i, j);
    }
  }

  lemma {:induction false} EquivalentSameSorted(a: Json, b: Json)
    requires Ok(a) && Ok(b) && Equivalent(a, b)
    ensures SortDeep(a) == SortDeep(b)
    decreases a
  {
    match a
    case Arr(xs) =>
      forall i | 0 <= i < |xs| ensures SortDeep(xs[i]) == SortDeep(b.items[i]) {
        EquivalentSameSorted(xs[i], b.items[i]);
      }
      assert SortItems(xs) == SortItems(b.items);
    case Obj(ms) =>
      var ns := b.members;
      var (p, q) := (SortValues(ms), SortValues(ns));
      forall i | 0 <= i < |ms| ensures p[i] in q {
        assert HasMatch(ms[i], ns);
        var j :| 0 <= j < |ns| && ns[j].key == ms[i].key && Equivalent(ms[i].value, ns[j].value);
        EquivalentSameSorted(ms[i].value, ns[j].value);
        assert p[i] == q[j];
      }
      SortKeepsMembers(p);
      SortKeepsMembers(q);
      SortSorted(p);
      SortSorted(q);
      SortedUnique(Sort(p), Sort(q));
    case _ =>
  }

  /** Two values have the same canonical text if and only if they are equal up to member order. */
  lemma CanonicalExact(a: Json, b: Json)
    requires Ok(a) && Ok(b)
    ensures Canonical(a) == Canonical(b) <==> Equivalent(a, b)
  {
    CanonicalIsSorted(a);
    CanonicalIsSorted(b);
    if Canonical(a) == Canonical(b) {
      ParseStringify(SortDeep(a));
      ParseStringify(SortDeep(b));
      SameSortedIsEquivalent(a, b);
    }
    if Equivalent(a, b) {
      EquivalentSameSorted(a, b);
    }
  }

  lemma EquivalentReflexive(a: Json)
    requires Ok(a)
    ensures Equivalent(a, a)
  {
    CanonicalExact(a, a);
  }
}

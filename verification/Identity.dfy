/**
 Who an execution belongs to: header and path parsing (server/src/app.ts:16-23) and the operation
 and experiment references sent to the runner (server/src/runner-client.ts:19-53).
 */
module Identity {
  import opened Wrappers
  import opened JsonNumber
  import opened JsonString

  const COLON: Unit := 0x3A

  predicate Word(u: Unit) {
    0x30 <= u <= 0x39 || 0x41 <= u <= 0x5A || 0x61 <= u <= 0x7A || u == 0x5F
  }

  /** A character allowed in a namespace: [\w-]. */
  predicate NamespaceUnit(u: Unit) {
    Word(u) || u == 0x2D
  }

  predicate IsNamespace(t: Text) {
    1 <= |t| <= 32 && forall i :: 0 <= i < |t| ==> NamespaceUnit(t[i])
  }

  /** A character allowed in a key or request id: [\w.:-]. */
  predicate HeaderUnit(u: Unit) {
    NamespaceUnit(u) || u == 0x2E || u == COLON
  }

  predicate IsHeaderValue(t: Text, maxLength: nat) {
    1 <= |t| <= maxLength && forall i :: 0 <= i < |t| ==> HeaderUnit(t[i])
  }

  /** White space removed by trim: spaces and line ends of the ASCII range and the no-break spaces. */
  predicate Blank(u: Unit) {
    9 <= u <= 13 || u == 0x20 || u == 0xA0 || u == 0xFEFF || u == 0x1680 || 0x2000 <= u <= 0x200A || u == 0x2028
    || u == 0x2029 || u == 0x202F || u == 0x205F || u == 0x3000
  }

  function Trim(t: Text): (r: Text)
    ensures |r| <= |t|
    ensures r != [] ==> !Blank(r[0]) && !Blank(r[|r| - 1])
    decreases |t|
  {
    if t == [] then []
    else if Blank(t[0]) then Trim(t[1..])
    else if Blank(t[|t| - 1]) then Trim(t[..|t| - 1])
    else t
  }

  function ReadHeader(header: Option<Text>, maxLength: nat): Option<Text> {
    if header.Some? && IsHeaderValue(Trim(header.value), maxLength) then Some(Trim(header.value)) else None
  }

  predicate AllBlank(t: Text) {
    forall i :: 0 <= i < |t| ==> Blank(t[i])
  }

  /** Trimming removes exactly the white space around a text. */
  lemma {:induction false} TrimKeeps(left: Text, t: Text, right: Text)
    requires AllBlank(left) && AllBlank(right) && t != [] && !Blank(t[0]) && !Blank(t[|t| - 1])
    ensures Trim(left + t + right) == t
    decreases |left|, |right|
  {
    var all := left + t + right;
    if left != [] {
      assert all[1..] == left[1..] + t + right;
      TrimKeeps(left[1..], t, right);
    } else if right != [] {
      assert all == t + right && all[..|all| - 1] == left + t + right[..|right| - 1];
      TrimKeeps(left, t, right[..|right| - 1]);
    } else {
      assert all == t;
    }
  }

  /**
   A header is read as the text in it, without the white space around it, if and only if that text is of
   the accepted form; any other header is read as none.
   */
  lemma HeaderReadsBack(left: Text, t: Text, right: Text, maxLength: nat)
    requires AllBlank(left) && AllBlank(right) && t != [] && !Blank(t[0]) && !Blank(t[|t| - 1])
    ensures ReadHeader(Some(left + t + right), maxLength) == if IsHeaderValue(t, maxLength) then Some(t) else None
    ensures ReadHeader(None, maxLength).None?
  {
    TrimKeeps(left, t, right);
  }

  /** Every accepted value is read as itself, whatever white space is around it. */
  lemma AcceptedIsRead(left: Text, t: Text, right: Text, maxLength: nat)
    requires AllBlank(left) && AllBlank(right) && IsHeaderValue(t, maxLength)
    ensures ReadHeader(Some(left + t + right), maxLength) == Some(t)
  {
    assert HeaderUnit(t[0]) && HeaderUnit(t[|t| - 1]);
    HeaderReadsBack(left, t, right, maxLength);
  }

  /** The digits of a path segment of at most fifteen digits without a leading zero. */
  function ParseExperimentId(t: Text): (id: Option<nat>)
  {
    if 1 <= |t| <= 15 && (forall i :: 0 <= i < |t| ==> IsDigit(t[i])) && t[0] != ZERO
    then Some(NatValue(DigitValues(t)))
    else None
  }

  function IdText(id: nat): Text {
    DigitsText(NatDigits(id))
  }

  /** `namespace:id:key` */
  function OperationId(namespace: Text, id: nat, key: Text): Text {
    namespace + [COLON] + IdText(id) + [COLON] + key
  }

  /** `namespace:experiment:id` */
  function ExperimentRef(namespace: Text, id: nat): Text {
    namespace + [COLON] + Ascii("experiment") + [COLON] + IdText(id)
  }

  predicate NoColon(t: Text) {
    forall i :: 0 <= i < |t| ==> t[i] != COLON
  }

  function FirstColon(t: Text): nat {
    if t == [] || t[0] == COLON then 0 else 1 + FirstColon(t[1..])
  }

  lemma {:induction false} FirstColonAfter(a: Text, x: Text)
    requires NoColon(a)
    ensures FirstColon(a + [COLON] + x) == |a|
  {
    if a != [] {
      FirstColonAfter(a[1..], x);
      assert (a + [COLON] + x)[1..] == a[1..] + [COLON] + x;
    }
  }

  lemma SplitAtColon(a: Text, x: Text, b: Text, y: Text)
    requires NoColon(a) && NoColon(b) && a + [COLON] + x == b + [COLON] + y
    ensures a == b && x == y
  {
    var t := a + [COLON] + x;
    FirstColonAfter(a, x);
    FirstColonAfter(b, y);
    assert a == t[..|a|] && x == t[|a| + 1..];
    assert b == t[..|b|] && y == t[|b| + 1..];
  }

  lemma IdTextInjective(m: nat, n: nat)
    requires IdText(m) == IdText(n)
    ensures m == n
  {
    var (a, b) := (NatDigits(m), NatDigits(n));
    forall i | 0 <= i < |a| ensures a[i] == b[i] {
      assert DigitUnit(a[i]) == IdText(m)[i];
    }
    assert a == b;
  }

  /** Equal operation ids come from equal namespaces, experiments and keys, colons in keys included. */
  lemma OperationIdInjective(n1: Text, id1: nat, k1: Text, n2: Text, id2: nat, k2: Text)
    requires IsNamespace(n1) && IsNamespace(n2)
    requires OperationId(n1, id1, k1) == OperationId(n2, id2, k2)
    ensures n1 == n2 && id1 == id2 && k1 == k2
  {
    var (x, y) := (IdText(id1) + [COLON] + k1, IdText(id2) + [COLON] + k2);
    assert OperationId(n1, id1, k1) == n1 + [COLON] + x;
    assert OperationId(n2, id2, k2) == n2 + [COLON] + y;
    SplitAtColon(n1, x, n2, y);
    SplitAtColon(IdText(id1), k1, IdText(id2), k2);
    IdTextInjective(id1, id2);
  }

  lemma ExperimentRefInjective(n1: Text, id1: nat, n2: Text, id2: nat)
    requires IsNamespace(n1) && IsNamespace(n2) && ExperimentRef(n1, id1) == ExperimentRef(n2, id2)
    ensures n1 == n2 && id1 == id2
  {
    var word := Ascii("experiment");
    var (x, y) := (word + [COLON] + IdText(id1), word + [COLON] + IdText(id2));
    assert ExperimentRef(n1, id1) == n1 + [COLON] + x;
    assert ExperimentRef(n2, id2) == n2 + [COLON] + y;
    SplitAtColon(n1, x, n2, y);
    assert IdText(id1) == x[|word| + 1..] && IdText(id2) == y[|word| + 1..];
    IdTextInjective(id1, id2);
  }

  // ----- lengths

  /** An id accepted from a path is the one its text names, and printing it gives the text back. */
  lemma ParsedIdPrintsBack(t: Text)
    requires ParseExperimentId(t).Some?
    ensures ParseExperimentId(t).value > 0 && IdText(ParseExperimentId(t).value) == t
  {
    DigitsOfValue(DigitValues(t));
    assert DigitsText(DigitValues(t)) == t;
  }

  /** Every id of at most fifteen digits is accepted as it is printed. */
  lemma PrintedIdParses(id: nat)
    requires 1 <= id < 1_000_000_000_000_000
    ensures ParseExperimentId(IdText(id)) == Some(id)
  {
    assert Ten(15) == 1_000_000_000_000_000;
    DigitsWithin(id, 15);
    assert DigitValues(IdText(id)) == NatDigits(id);
    assert IdText(id)[0] == DigitUnit(NatDigits(id)[0]);
  }

  function Ten(k: nat): nat {
    if k == 0 then 1 else 10 * Ten(k - 1)
  }

  lemma {:induction false} DigitsWithin(n: nat, k: nat)
    requires 0 < n < Ten(k)
    ensures |NatDigits(n)| <= k && NatDigits(n)[0] != 0
    decreases n
  {
    if n >= 10 { DigitsWithin(n / 10, k - 1); }
  }

  lemma {:induction false} DigitsOfValue(ds: seq<Digit>)
    requires ds != [] && ds[0] != 0
    ensures NatValue(ds) > 0 && NatDigits(NatValue(ds)) == ds
    decreases |ds|
  {
    var init := ds[..|ds| - 1];
    assert ds == init + [ds[|ds| - 1]];
    if init == [] {
      assert NatValue(init) == 0;
    } else {
      DigitsOfValue(init);
      assert NatValue(ds) / 10 == NatValue(init) && NatValue(ds) % 10 == ds[|ds| - 1];
    }
  }

  /**
   Every accepted namespace and path id makes, with a key or exchange id of at most 80 units, an operation
   id of at most 200 units and an experiment reference of at most 80, which are the runner's limits.
   */
  lemma ReferencesWithinRunnerLimits(namespace: Text, segment: Text, key: Text)
    requires IsNamespace(namespace) && ParseExperimentId(segment).Some? && |key| <= 80
    ensures 1 <= |OperationId(namespace, ParseExperimentId(segment).value, key)| <= 200
    ensures 1 <= |ExperimentRef(namespace, ParseExperimentId(segment).value)| <= 80
  {
    ParsedIdPrintsBack(segment);
  }
}

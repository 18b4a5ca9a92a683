/**
 Listing reviews: option parsing (coordinator-dotnet/Models/ReviewListOptions.cs:7-32), the SQL that
 one adapter assembles with positional parameters (coordinator-dotnet/Data/SqliteRepository.cs:74-102)
 and the query pipeline of the other (coordinator-dotnet/Data/EfRepository.cs:114-130). Both read the
 table in an order of the database's choosing.
 */
module ReviewQuery {
  import opened Wrappers
  import opened ReviewStore

  const INT_MAX := 0x7FFF_FFFF

  datatype Options = Options(status: Option<Status>, page: Option<int>, pageSize: Option<int>)

  datatype Parsed = Accepted(options: Options) | BadRequest

  // ----- option parsing

  predicate IsDigits(s: string) {
    s != "" && forall i :: 0 <= i < |s| ==> '0' <= s[i] <= '9'
  }

  function Value(s: string): nat
    requires forall i :: 0 <= i < |s| ==> '0' <= s[i] <= '9'
  {
    if s == "" then 0 else 10 * Value(s[..|s| - 1]) + (s[|s| - 1] as int - '0' as int)
  }

  /** int.TryParse with NumberStyles.None: digits only, within 32 bits. */
  function TryParse(s: string): (r: Option<int>)
    ensures r.Some? ==> 0 <= r.value <= INT_MAX
  {
    if IsDigits(s) && Value(s) <= INT_MAX then Some(Value(s)) else None
  }

  function ParseStatus(s: string): Option<Status> {
    if s == "pending" then Some(PENDING) else if s == "approved" then Some(APPROVED) else if s == "rejected"
        then Some(REJECTED) else None
  }

  function ParseOptions(status: Option<string>, page: Option<string>, pageSize: Option<string>): Parsed {
    if status.Some? && ParseStatus(status.value).None? then BadRequest
    else if page.None? != pageSize.None? then BadRequest
    else
      var wanted := if status.Some? then ParseStatus(status.value) else None;
      if page.None? then Accepted(Options(wanted, None, None))
      else
        var p, n := TryParse(page.value), TryParse(pageSize.value);
        if p.None? || p.value < 1 || n.None? || n.value < 1 || n.value > 100 then BadRequest
        else if (p.value - 1) * n.value > INT_MAX then BadRequest
        else Accepted(Options(wanted, p, n))
  }

  function Digit(n: nat): char
    requires n < 10
  {
    '0' + n as char
  }

  function IntText(n: nat): string {
    if n < 10 then [Digit(n)] else IntText(n / 10) + [Digit(n % 10)]
  }

  function StatusText(s: Status): string {
    match s
    case PENDING => "pending"
    case APPROVED => "approved"
    case REJECTED => "rejected"
  }

  lemma {:induction false} IntTextReads(n: nat)
    ensures IsDigits(IntText(n)) && Value(IntText(n)) == n
  {
    if n < 10 {
      assert IntText(n)[..0] == "";
      assert Value(IntText(n)[..0]) == 0;
    } else {
      IntTextReads(n / 10);
      assert IntText(n)[..|IntText(n)| - 1] == IntText(n / 10);
    }
  }

  /** The printed text of a number is parsed as that number if and only if it fits in 32 bits. */
  lemma NumbersReadBack(n: nat)
    ensures TryParse(IntText(n)) == if n <= INT_MAX then Some(n) else None
  {
    IntTextReads(n);
  }

  /** Leading zeros are allowed, and nothing but digits is. */
  lemma {:induction false} OnlyDigitsAreNumbers(s: string)
    ensures TryParse(s).Some? ==> IsDigits(s)
    ensures IsDigits(s) ==> Value("0" + s) == Value(s) && TryParse("0" + s) == TryParse(s)
    decreases |s|
  {
    if |s| == 1 {
      assert ("0" + s)[..1] == "0" && "0"[..0] == "" && s[..0] == "";
      assert Value("0") == 0;
    } else if IsDigits(s) {
      OnlyDigitsAreNumbers(s[..|s| - 1]);
      assert ("0" + s)[..|s|] == "0" + s[..|s| - 1];
    }
  }

  lemma StatusReadsBack(s: Status, t: string)
    ensures ParseStatus(StatusText(s)) == Some(s)
    ensures ParseStatus(t) == Some(s) ==> t == StatusText(s)
  {
  }

  /**
   What a client asks for is what is listed: the options printed in a request are read as they were meant,
   within limits.
   */
  lemma OptionsReadBack(status: Option<Status>, page: nat, size: nat)
    ensures var text := if status.Some? then Some(StatusText(status.value)) else None;
            && ParseOptions(text, None, None) == Accepted(Options(status, None, None))
            && ParseOptions(text, Some(IntText(page)), None) == BadRequest
            && ParseOptions(text, None, Some(IntText(size))) == BadRequest
            && ParseOptions(text, Some(IntText(page)), Some(IntText(size)))
               == if 1 <= page && 1 <= size <= 100 && page <= INT_MAX && (page - 1) * size <= INT_MAX
                  then Accepted(Options(status, Some(page), Some(size))) else BadRequest
  {
    NumbersReadBack(page);
    NumbersReadBack(size);
    if status.Some? { StatusReadsBack(status.value, ""); }
    hide TryParse, IntText, StatusText, ParseStatus;
  }

  /**
   Whatever texts a request carries, they are accepted if and only if the status is one of three, page and
   size are both there or both missing, and they are digits of numbers within limits.
   */
  lemma AcceptedOptionsAreExact(status: Option<string>, page: Option<string>, size: Option<string>)
    ensures ParseOptions(status, page, size).Accepted? <==>
              && (status.Some? ==>
                  status.value == "pending" || status.value == "approved" || status.value == "rejected")
              && page.Some? == size.Some?
              && (page.Some? ==>
                    && IsDigits(page.value) && IsDigits(size.value)
                    && 1 <= Value(page.value) <= 0x7FFF_FFFF && 1 <= Value(size.value) <= 100
                    && (Value(page.value) - 1) * Value(size.value) <= 0x7FFF_FFFF)
  {
    hide IsDigits, Value;
  }

  function IsPaged(o: Options): bool {
    o.page.Some?
  }

  /** The checked 32-bit product; None stands for the overflow exception. */
  function Offset(o: Options): Option<int> {
    if !IsPaged(o) || o.pageSize.None? then Some(0)
    else
      var product := (o.page.value - 1) * o.pageSize.value;
      if -INT_MAX - 1 <= product <= INT_MAX then Some(product) else None
  }

  /** Options a request can produce: paging is absent, or a page and size whose offset fits. */
  predicate OptionsOk(o: Options) {
    o.page.Some? == o.pageSize.Some?
    && (o.page.Some? ==>
        1 <= o.page.value && 1 <= o.pageSize.value <= 100 && 0 <= (o.page.value - 1) * o.pageSize.value <= INT_MAX)
  }

  /** Every parsed offset fits in 32 bits, so the checked multiplication never throws. */
  lemma ParsedOffsetFits(status: Option<string>, page: Option<string>, pageSize: Option<string>)
    requires ParseOptions(status, page, pageSize).Accepted?
    ensures var o := ParseOptions(status, page, pageSize).options;
            OptionsOk(o) && Offset(o).Some? && 0 <= Offset(o).value <= INT_MAX
  {
    hide TryParse, ParseStatus;
    var o := ParseOptions(status, page, pageSize).options;
    if o.page.Some? { ProductIsNatural(o.page.value - 1, o.pageSize.value); }
  }

  lemma ProductIsNatural(a: int, b: int)
    requires 0 <= a && 0 <= b
    ensures 0 <= a * b
  {
  }

  // ----- the SQL text, as the fragments the builder appends

  datatype Condition = ResearcherIs(parameter: nat) | StatusIs(parameter: nat)

  datatype Fragment =
    | SelectReviews
    | Where(condition: Condition)
    | And(condition: Condition)
    | OrderByPendingThenNewest
    | Limit(parameter: nat)
    | OffsetBy(parameter: nat)

  datatype Parameter = Text(text: string) | StatusValue(status: Status) | Number(number: int)

  predicate Matches(c: Condition, values: seq<Parameter>, v: Review)
    requires ConditionOk(c, values)
  {
    match c
    case ResearcherIs(n) => v.researcherId == values[n].text
    case StatusIs(n) => v.status == values[n].status
  }

  predicate ConditionOk(c: Condition, values: seq<Parameter>) {
    c.parameter < |values| && if c.ResearcherIs? then values[c.parameter].Text? else values[c.parameter].StatusValue?
  }

  function Select(rows: seq<Review>, c: Condition, values: seq<Parameter>): seq<Review>
    requires ConditionOk(c, values)
  {
    if rows == [] then []
    else (if Matches(c, values, rows[0]) then [rows[0]] else []) + Select(rows[1..], c, values)
  }

  /** CASE WHEN status = 'pending' THEN 0 ELSE 1 END, id DESC */
  predicate Precedes(v: Review, w: Review) {
    (v.status == PENDING && w.status != PENDING)
    || ((v.status == PENDING <==> w.status == PENDING) && v.id > w.id)
  }

  function OrderedInsert(v: Review, rows: seq<Review>): (r: seq<Review>)
    ensures multiset(r) == multiset(rows) + multiset{v}
  {
    if rows == [] || Precedes(v, rows[0]) then [v] + rows
    else
      assert rows == [rows[0]] + rows[1..];
      [rows[0]] + OrderedInsert(v, rows[1..])
  }

  function OrderBy(rows: seq<Review>): (r: seq<Review>)
    ensures multiset(r) == multiset(rows)
  {
    if rows == [] then []
    else
      assert rows == [rows[0]] + rows[1..];
      OrderedInsert(rows[0], OrderBy(rows[1..]))
  }

  function Min(a: int, b: int): int {
    if a < b then a else b
  }

  /** A query that is not well formed, or names a parameter that was not bound, has no result. */
  function Evaluate(sql: seq<Fragment>, values: seq<Parameter>, table: seq<Review>): Option<seq<Review>> {
    if sql == [] || !sql[0].SelectReviews? then None else Filter(sql[1..], values, table, true)
  }

  function Filter(sql: seq<Fragment>, values: seq<Parameter>, rows: seq<Review>, first: bool): Option<seq<Review>> {
    if sql == [] then None
    else if sql[0].OrderByPendingThenNewest? then Window(sql[1..], values, OrderBy(rows))
    else if (first && sql[0].Where?) || (!first && sql[0].And?) then
      if ConditionOk(sql[0].condition, values) then Filter(sql[1..], values, Select(rows, sql[0].condition, values),
          false) else None
    else None
  }

  function Window(sql: seq<Fragment>, values: seq<Parameter>, rows: seq<Review>): Option<seq<Review>> {
    if sql == [] then Some(rows)
    else if |sql| == 2 && sql[0].Limit? && sql[1].OffsetBy? && sql[0].parameter < |values|
        && sql[1].parameter < |values|
         && values[sql[0].parameter].Number? && values[sql[1].parameter].Number?
         && 0 <= values[sql[0].parameter].number && 0 <= values[sql[1].parameter].number then
      var from := Min(values[sql[1].parameter].number, |rows|);
      Some(rows[from..from + Min(values[sql[0].parameter].number, |rows| - from)])
    else None
  }

  // ----- the query pipeline: Where, OrderBy, ThenByDescending, Skip, Take

  function WhereResearcher(rows: seq<Review>, researcher: string): seq<Review> {
    if rows == [] then []
    else if rows[0].researcherId == researcher then [rows[0]] + WhereResearcher(rows[1..], researcher)
    else WhereResearcher(rows[1..], researcher)
  }

  function WhereStatus(rows: seq<Review>, status: Status): seq<Review> {
    if rows == [] then []
    else if rows[0].status == status then [rows[0]] + WhereStatus(rows[1..], status)
    else WhereStatus(rows[1..], status)
  }

  function Rank(v: Review): int {
    if v.status == PENDING then 0 else 1
  }

  /** One stable pass of a sort by descending id. */
  function InsertByNewest(v: Review, rows: seq<Review>): (r: seq<Review>)
    ensures multiset(r) == multiset(rows) + multiset{v}
  {
    if rows == [] || v.id >= rows[0].id then [v] + rows
    else
      assert rows == [rows[0]] + rows[1..];
      [rows[0]] + InsertByNewest(v, rows[1..])
  }

  function SortByNewest(rows: seq<Review>): (r: seq<Review>)
    ensures multiset(r) == multiset(rows)
  {
    if rows == [] then []
    else
      assert rows == [rows[0]] + rows[1..];
      InsertByNewest(rows[0], SortByNewest(rows[1..]))
  }

  function OfRank(rows: seq<Review>, rank: int): (r: seq<Review>)
    ensures forall v :: v in r ==> v in rows && Rank(v) == rank
  {
    if rows == [] then []
    else (if Rank(rows[0]) == rank then [rows[0]] else []) + OfRank(rows[1..], rank)
  }

  /** The secondary key first, then the primary key, which keeps the order of equal keys. */
  function OrderByRankThenNewest(rows: seq<Review>): seq<Review> {
    var newest := SortByNewest(rows);
    OfRank(newest, 0) + OfRank(newest, 1)
  }

  function Skip(rows: seq<Review>, n: int): seq<Review>
    requires 0 <= n
  {
    if rows == [] || n == 0 then rows else Skip(rows[1..], n - 1)
  }

  function Take(rows: seq<Review>, n: int): seq<Review>
    requires 0 <= n
  {
    if rows == [] || n == 0 then [] else [rows[0]] + Take(rows[1..], n - 1)
  }

  function Chosen(table: seq<Review>, researcher: Option<string>, status: Option<Status>): seq<Review> {
    var mine := if researcher.Some? then WhereResearcher(table, researcher.value) else table;
    if status.Some? then WhereStatus(mine, status.value) else mine
  }

  function Pipeline(table: seq<Review>, researcher: Option<string>, o: Options): seq<Review>
    requires OptionsOk(o)
  {
    Page(OrderByRankThenNewest(Chosen(table, researcher, o.status)), o)
  }

  function Page(ordered: seq<Review>, o: Options): seq<Review>
    requires OptionsOk(o)
  {
    if IsPaged(o) then Take(Skip(ordered, (o.page.value - 1) * o.pageSize.value), o.pageSize.value) else ordered
  }

  // ----- the meaning of a listing

  /** A primary key: no row twice, and no two rows with one id. */
  ghost predicate DistinctIds(rows: multiset<Review>) {
    (forall v :: rows[v] <= 1) && (forall v, w :: v in rows && w in rows && v.id == w.id ==> v == w)
  }

  /** Two scans of one table. */
  ghost predicate SameRows(table: seq<Review>, scan: seq<Review>) {
    multiset(table) == multiset(scan) && DistinctIds(multiset(table))
  }

  ghost predicate Wanted(v: Review, researcher: Option<string>, status: Option<Status>) {
    (researcher.Some? ==> v.researcherId == researcher.value) && (status.Some? ==> v.status == status.value)
  }

  /** Pending first, and within each group the newest first. */
  ghost predicate InOrder(v: Review, w: Review) {
    (v.status.PENDING? && !w.status.PENDING?) || ((v.status.PENDING? <==> w.status.PENDING?) && v.id >= w.id)
  }

  ghost predicate Ordered(rows: seq<Review>) {
    forall i, j :: 0 <= i < j < |rows| ==> InOrder(rows[i], rows[j])
  }

  lemma OrderedCons(v: Review, rows: seq<Review>)
    requires Ordered(rows)
    requires forall w :: w in multiset(rows) ==> InOrder(v, w)
    ensures Ordered([v] + rows)
  {
    var all := [v] + rows;
    forall i, j | 0 <= i < j < |all| ensures InOrder(all[i], all[j]) {
      assert all[j] == rows[j - 1] && rows[j - 1] in multiset(rows);
      if i > 0 { assert all[i] == rows[i - 1]; }
    }
  }

  lemma HeadInOrder(rows: seq<Review>)
    requires rows != [] && Ordered(rows)
    ensures Ordered(rows[1..])
    ensures multiset(rows) == multiset{rows[0]} + multiset(rows[1..])
    ensures forall w :: w in multiset(rows[1..]) ==> InOrder(rows[0], w)
  {
    assert rows == [rows[0]] + rows[1..];
    forall w | w in multiset(rows[1..]) ensures InOrder(rows[0], w) {
      assert w in rows[1..];
    }
  }

  /** An order of distinct ids leaves one arrangement. */
  lemma {:induction false} ArrangementIsUnique(a: seq<Review>, b: seq<Review>)
    requires Ordered(a) && Ordered(b) && multiset(a) == multiset(b) && DistinctIds(multiset(a))
    ensures a == b
  {
    if a == [] {
      assert |multiset(b)| == 0;
    } else {
      assert |multiset(a)| == |multiset(b)|;
      SameHead(a, b);
      assert a == [a[0]] + a[1..] && b == [b[0]] + b[1..];
      ArrangementIsUnique(a[1..], b[1..]);
    }
  }

  lemma SameHead(a: seq<Review>, b: seq<Review>)
    requires a != [] && b != [] && Ordered(a) && Ordered(b) && multiset(a) == multiset(b) && DistinctIds(multiset(a))
    ensures a[0] == b[0] && multiset(a[1..]) == multiset(b[1..])
    ensures Ordered(a[1..]) && Ordered(b[1..]) && DistinctIds(multiset(a[1..]))
  {
    HeadInOrder(a);
    HeadInOrder(b);
    TailDistinct(multiset(a), a[0]);
    hide Ordered;
    assert a[0] in multiset(b) && b[0] in multiset(a);
    FirstIsUnique(a[0], b[0], multiset(a));
    hide DistinctIds;
    assert multiset(a[1..]) == multiset(a) - multiset{a[0]} == multiset(b[1..]);
  }

  lemma FirstIsUnique(v: Review, w: Review, rows: multiset<Review>)
    requires DistinctIds(rows) && v in rows && w in rows
    requires forall x :: x in rows - multiset{v} ==> InOrder(v, x)
    requires forall x :: x in rows - multiset{w} ==> InOrder(w, x)
    ensures v == w
  {
    assert w == v || w in rows - multiset{v};
    assert v == w || v in rows - multiset{w};
  }

  lemma TailDistinct(rows: multiset<Review>, v: Review)
    requires DistinctIds(rows)
    ensures DistinctIds(rows - multiset{v})
  {
    var rest := rows - multiset{v};
    forall w ensures rest[w] <= rows[w] { }
  }

  // ----- both sorts put rows in that order

  lemma {:induction false} OrderedInsertKeepsOrder(v: Review, rows: seq<Review>)
    requires Ordered(rows)
    ensures Ordered(OrderedInsert(v, rows))
  {
    if rows == [] {
    } else {
      HeadInOrder(rows);
      if Precedes(v, rows[0]) {
        OrderedCons(v, rows);
      } else {
        OrderedInsertKeepsOrder(v, rows[1..]);
        OrderedCons(rows[0], OrderedInsert(v, rows[1..]));
      }
    }
  }

  lemma {:induction false} OrderByOrders(rows: seq<Review>)
    ensures Ordered(OrderBy(rows))
  {
    if rows == [] {
    } else {
      OrderByOrders(rows[1..]);
      OrderedInsertKeepsOrder(rows[0], OrderBy(rows[1..]));
    }
  }

  ghost predicate NewestFirst(rows: seq<Review>) {
    forall i, j :: 0 <= i < j < |rows| ==> rows[i].id >= rows[j].id
  }

  lemma {:induction false} InsertByNewestKeepsOrder(v: Review, rows: seq<Review>)
    requires NewestFirst(rows)
    ensures NewestFirst(InsertByNewest(v, rows))
  {
    if rows == [] || v.id >= rows[0].id {
    } else {
      InsertByNewestKeepsOrder(v, rows[1..]);
      var rest := InsertByNewest(v, rows[1..]);
      forall j | 0 <= j < |rest| ensures rows[0].id >= rest[j].id {
        assert rest[j] in multiset(rest);
        if rest[j] != v { assert rest[j] in multiset(rows[1..]); assert rest[j] in rows[1..]; }
      }
    }
  }

  lemma {:induction false} SortByNewestOrders(rows: seq<Review>)
    ensures NewestFirst(SortByNewest(rows))
  {
    if rows == [] {
    } else {
      SortByNewestOrders(rows[1..]);
      InsertByNewestKeepsOrder(rows[0], SortByNewest(rows[1..]));
    }
  }

  lemma {:induction false} OfRankKeepsOrder(rows: seq<Review>, rank: int)
    requires NewestFirst(rows)
    ensures NewestFirst(OfRank(rows, rank))
  {
    if rows == [] {
    } else {
      OfRankKeepsOrder(rows[1..], rank);
      var rest := OfRank(rows[1..], rank);
      forall j | 0 <= j < |rest| ensures rows[0].id >= rest[j].id {
        assert rest[j] in rows[1..];
      }
    }
  }

  lemma {:induction false} RanksPartition(rows: seq<Review>)
    ensures multiset(OfRank(rows, 0)) + multiset(OfRank(rows, 1)) == multiset(rows)
  {
    if rows == [] {
    } else {
      RanksPartition(rows[1..]);
      assert rows == [rows[0]] + rows[1..];
    }
  }

  lemma RanksInOrder(a: seq<Review>, b: seq<Review>)
    requires NewestFirst(a) && NewestFirst(b)
    requires (forall v :: v in a ==> Rank(v) == 0) && (forall v :: v in b ==> Rank(v) == 1)
    ensures Ordered(a + b)
  {
    forall i, j | 0 <= i < j < |a + b| ensures InOrder((a + b)[i], (a + b)[j]) {
      if j < |a| {
        assert a[i] in a && a[j] in a;
      } else if i < |a| {
        assert a[i] in a && b[j - |a|] in b;
      } else {
        assert b[i - |a|] in b && b[j - |a|] in b;
      }
    }
  }

  lemma PipelineOrders(rows: seq<Review>)
    ensures Ordered(OrderByRankThenNewest(rows))
    ensures multiset(OrderByRankThenNewest(rows)) == multiset(rows)
  {
    var newest := SortByNewest(rows);
    SortByNewestOrders(rows);
    OfRankKeepsOrder(newest, 0);
    OfRankKeepsOrder(newest, 1);
    RanksPartition(newest);
    hide SortByNewest, OfRank, NewestFirst, Ordered, Rank;
    RanksInOrder(OfRank(newest, 0), OfRank(newest, 1));
  }

  // ----- both filters keep the wanted rows

  lemma {:induction false} SelectCounts(rows: seq<Review>, c: Condition, values: seq<Parameter>, v: Review)
    requires ConditionOk(c, values)
    ensures multiset(Select(rows, c, values))[v] == if Matches(c, values, v) then multiset(rows)[v] else 0
  {
    if rows == [] {
    } else {
      SelectCounts(rows[1..], c, values, v);
      assert rows == [rows[0]] + rows[1..];
    }
  }

  lemma {:induction false} WhereResearcherCounts(rows: seq<Review>, researcher: string, v: Review)
    ensures multiset(WhereResearcher(rows, researcher))[v] == if v.researcherId == researcher then multiset(rows)[v]
        else 0
  {
    if rows == [] {
    } else {
      WhereResearcherCounts(rows[1..], researcher, v);
      assert rows == [rows[0]] + rows[1..];
    }
  }

  lemma {:induction false} WhereStatusCounts(rows: seq<Review>, status: Status, v: Review)
    ensures multiset(WhereStatus(rows, status))[v] == if v.status == status then multiset(rows)[v] else 0
  {
    if rows == [] {
    } else {
      WhereStatusCounts(rows[1..], status, v);
      assert rows == [rows[0]] + rows[1..];
    }
  }

  lemma ChosenCounts(table: seq<Review>, researcher: Option<string>, status: Option<Status>, v: Review)
    ensures multiset(Chosen(table, researcher, status))[v] == if Wanted(v, researcher, status) then multiset(table)[v]
        else 0
  {
    if researcher.Some? { WhereResearcherCounts(table, researcher.value, v); }
    if status.Some? {
      WhereStatusCounts(if researcher.Some? then WhereResearcher(table, researcher.value) else table, status.value, v);
    }
  }

  /** The rows the built WHERE clause leaves, `values` starting with the parameters it binds. */
  function Kept(table: seq<Review>, researcher: Option<string>, status: Option<Status>,
      values: seq<Parameter>): seq<Review>
    requires Bound(researcher, status) <= values
  {
    var mine := if researcher.Some? then Select(table, ResearcherIs(0), values) else table;
    if status.None? then mine else Select(mine, StatusIs(if researcher.Some? then 1 else 0), values)
  }

  lemma KeptCounts(table: seq<Review>, researcher: Option<string>, status: Option<Status>, values: seq<Parameter>,
      v: Review)
    requires Bound(researcher, status) <= values
    ensures multiset(Kept(table, researcher, status, values))[v] == if Wanted(v, researcher, status)
        then multiset(table)[v] else 0
  {
    if researcher.Some? { SelectCounts(table, ResearcherIs(0), values, v); }
    if status.Some? {
      var mine := if researcher.Some? then Select(table, ResearcherIs(0), values) else table;
      SelectCounts(mine, StatusIs(if researcher.Some? then 1 else 0), values, v);
    }
  }

  lemma KeptIsChosen(table: seq<Review>, scan: seq<Review>, researcher: Option<string>, status: Option<Status>,
      values: seq<Parameter>)
    requires SameRows(table, scan) && Bound(researcher, status) <= values
    ensures SameRows(Kept(table, researcher, status, values), Chosen(scan, researcher, status))
  {
    var kept, chosen := Kept(table, researcher, status, values), Chosen(scan, researcher, status);
    forall v ensures multiset(kept)[v] == multiset(chosen)[v] <= multiset(table)[v] {
      KeptCounts(table, researcher, status, values, v);
      ChosenCounts(scan, researcher, status, v);
    }
    assert multiset(kept) == multiset(chosen);
    forall v: Review, w: Review | v in multiset(kept) && w in multiset(kept) && v.id == w.id ensures v == w {
      assert multiset(kept)[v] <= multiset(table)[v] && multiset(kept)[w] <= multiset(table)[w];
      assert v in multiset(table) && w in multiset(table);
    }
  }

  lemma SortsAgree(rows: seq<Review>, scan: seq<Review>)
    requires SameRows(rows, scan)
    ensures OrderBy(rows) == OrderByRankThenNewest(scan)
  {
    OrderByOrders(rows);
    PipelineOrders(scan);
    ArrangementIsUnique(OrderBy(rows), OrderByRankThenNewest(scan));
  }

  // ----- both windows are the same slice

  lemma {:induction false} SkipIsSlice(rows: seq<Review>, n: int)
    requires 0 <= n
    ensures Skip(rows, n) == rows[Min(n, |rows|)..]
  {
    if rows == [] || n == 0 {
    } else {
      SkipIsSlice(rows[1..], n - 1);
      assert rows[1..][Min(n - 1, |rows| - 1)..] == rows[Min(n, |rows|)..];
    }
  }

  lemma {:induction false} TakeIsSlice(rows: seq<Review>, n: int)
    requires 0 <= n
    ensures Take(rows, n) == rows[..Min(n, |rows|)]
  {
    if rows == [] || n == 0 {
    } else {
      TakeIsSlice(rows[1..], n - 1);
      assert [rows[0]] + rows[1..][..Min(n - 1, |rows| - 1)] == rows[..Min(n, |rows|)];
    }
  }

  lemma WindowIsSkipTake(rows: seq<Review>, from: int, size: int)
    requires 0 <= from && 0 <= size
    ensures Take(Skip(rows, from), size) == rows[Min(from, |rows|)..Min(from, |rows|)
        + Min(size, |rows| - Min(from, |rows|))]
  {
    SkipIsSlice(rows, from);
    TakeIsSlice(Skip(rows, from), size);
  }

  // ----- the built query means the pipeline

  ghost predicate BuiltFor(researcher: Option<string>, o: Options, sql: seq<Fragment>, values: seq<Parameter>)
    requires OptionsOk(o)
  {
    sql == [SelectReviews] + WhereClause(researcher, o.status) + [OrderByPendingThenNewest]
        + LimitClause(|Bound(researcher, o.status)|, o)
    && values == Bound(researcher, o.status) + Paging(o)
  }

  function WhereClause(researcher: Option<string>, status: Option<Status>): seq<Fragment> {
    (if researcher.Some? then [Where(ResearcherIs(0))] else [])
    + (if status.None? then [] else if researcher.Some? then [And(StatusIs(1))] else [Where(StatusIs(0))])
  }

  function Bound(researcher: Option<string>, status: Option<Status>): seq<Parameter> {
    (if researcher.Some? then [Text(researcher.value)] else [])
        + (if status.Some? then [StatusValue(status.value)] else [])
  }

  function LimitClause(bound: nat, o: Options): seq<Fragment> {
    if IsPaged(o) then [Limit(bound), OffsetBy(bound + 1)] else []
  }

  function Paging(o: Options): seq<Parameter>
    requires OptionsOk(o)
  {
    if IsPaged(o) then [Number(o.pageSize.value), Number((o.page.value - 1) * o.pageSize.value)] else []
  }

  lemma FilterStep(f: Fragment, rest: seq<Fragment>, values: seq<Parameter>, rows: seq<Review>, first: bool)
    requires if first then f.Where? else f.And?
    requires ConditionOk(f.condition, values)
    ensures Filter([f] + rest, values, rows, first) == Filter(rest, values, Select(rows, f.condition, values), false)
  {
    assert ([f] + rest)[1..] == rest;
  }

  lemma ClauseFilters(researcher: Option<string>, status: Option<Status>, rest: seq<Fragment>, values: seq<Parameter>,
      table: seq<Review>)
    requires Bound(researcher, status) <= values
    ensures Filter(WhereClause(researcher, status) + [OrderByPendingThenNewest] + rest, values, table, true)
            == Window(rest, values, OrderBy(Kept(table, researcher, status, values)))
  {
    var sorted := [OrderByPendingThenNewest] + rest;
    assert sorted[1..] == rest;
    var whole := WhereClause(researcher, status) + [OrderByPendingThenNewest] + rest;
    if researcher.Some? && status.Some? {
      assert whole == [Where(ResearcherIs(0))] + ([And(StatusIs(1))] + sorted);
      FilterStep(Where(ResearcherIs(0)), [And(StatusIs(1))] + sorted, values, table, true);
      FilterStep(And(StatusIs(1)), sorted, values, Select(table, ResearcherIs(0), values), false);
    } else if researcher.Some? || status.Some? {
      var f := if researcher.Some? then Where(ResearcherIs(0)) else Where(StatusIs(0));
      assert whole == [f] + sorted;
      FilterStep(f, sorted, values, table, true);
    } else {
      assert whole == sorted;
    }
  }

  lemma ClauseWindows(researcher: Option<string>, o: Options, values: seq<Parameter>, rows: seq<Review>)
    requires OptionsOk(o) && values == Bound(researcher, o.status) + Paging(o)
    ensures Window(LimitClause(|Bound(researcher, o.status)|, o), values, rows) == Some(Page(rows, o))
  {
    if IsPaged(o) { WindowIsSkipTake(rows, (o.page.value - 1) * o.pageSize.value, o.pageSize.value); }
  }

  lemma BuiltSqlMeansPipeline(researcher: Option<string>, o: Options, sql: seq<Fragment>, values: seq<Parameter>,
      table: seq<Review>, scan: seq<Review>)
    requires OptionsOk(o) && BuiltFor(researcher, o, sql, values) && SameRows(table, scan)
    ensures Evaluate(sql, values, table) == Some(Pipeline(scan, researcher, o))
  {
    var limit := LimitClause(|Bound(researcher, o.status)|, o);
    EvaluateBuilt(researcher, o.status, limit, sql, values, table);
    SortedKept(researcher, o, values, table, scan);
    ClauseWindows(researcher, o, values, OrderByRankThenNewest(Chosen(scan, researcher, o.status)));
  }

  lemma EvaluateBuilt(researcher: Option<string>, status: Option<Status>, limit: seq<Fragment>, sql: seq<Fragment>,
      values: seq<Parameter>,
      table: seq<Review>)
    requires Bound(researcher, status) <= values
    requires sql == [SelectReviews] + WhereClause(researcher, status) + [OrderByPendingThenNewest] + limit
    ensures Evaluate(sql, values, table) == Window(limit, values, OrderBy(Kept(table, researcher, status, values)))
  {
    assert sql[1..] == WhereClause(researcher, status) + [OrderByPendingThenNewest] + limit;
    ClauseFilters(researcher, status, limit, values, table);
  }

  lemma SortedKept(researcher: Option<string>, o: Options, values: seq<Parameter>, table: seq<Review>,
      scan: seq<Review>)
    requires Bound(researcher, o.status) <= values && SameRows(table, scan)
    ensures OrderBy(Kept(table, researcher, o.status, values))
        == OrderByRankThenNewest(Chosen(scan, researcher, o.status))
  {
    KeptIsChosen(table, scan, researcher, o.status, values);
    SortsAgree(Kept(table, researcher, o.status, values), Chosen(scan, researcher, o.status));
  }

  /** The builder: each clause refers to the parameter it is about to bind. */
  method BuildSql(researcher: Option<string>, o: Options) returns (sql: seq<Fragment>, values: seq<Parameter>)
    requires OptionsOk(o)
    ensures forall table, scan :: SameRows(table, scan) ==>
        Evaluate(sql, values, table) == Some(Pipeline(scan, researcher, o))
  {
    sql, values := [SelectReviews], [];
    if researcher.Some? {
      sql := sql + [Where(ResearcherIs(|values|))];
      values := values + [Text(researcher.value)];
    }
    if o.status.Some? {
      sql := sql + [if |values| == 0 then Where(StatusIs(|values|)) else And(StatusIs(|values|))];
      values := values + [StatusValue(o.status.value)];
    }
    sql := sql + [OrderByPendingThenNewest];
    if IsPaged(o) {
      sql := sql + [Limit(|values|)];
      values := values + [Number(o.pageSize.value)];
      sql := sql + [OffsetBy(|values|)];
      values := values + [Number((o.page.value - 1) * o.pageSize.value)];
    }
    forall table, scan | SameRows(table, scan) ensures Evaluate(sql, values, table)
        == Some(Pipeline(scan, researcher, o)) {
      BuiltSqlMeansPipeline(researcher, o, sql, values, table, scan);
    }
  }

  // ----- what a listing is

  /** Without paging a caller gets exactly the wanted rows, each once, pending first and newest first. */
  lemma ListingIsExact(scan: seq<Review>, researcher: Option<string>, status: Option<Status>)
    requires DistinctIds(multiset(scan))
    ensures var list := Pipeline(scan, researcher, Options(status, None, None));
            (forall v :: v in list <==> v in scan && Wanted(v, researcher, status))
            && (forall i, j :: 0 <= i < j < |list| ==> list[i].id != list[j].id && InOrder(list[i], list[j]))
  {
    ListingCounts(scan, researcher, status);
    var list := OrderByRankThenNewest(Chosen(scan, researcher, status));
    hide OrderByRankThenNewest, Chosen, Wanted, DistinctIds, InOrder;
    SameMembers(list, scan, researcher, status);
    NoRepeats(list, multiset(scan));
  }

  lemma ListingCounts(scan: seq<Review>, researcher: Option<string>, status: Option<Status>)
    ensures var list := OrderByRankThenNewest(Chosen(scan, researcher, status));
            Ordered(list) && forall v :: multiset(list)[v] == if Wanted(v, researcher, status) then multiset(scan)[v]
                else 0
  {
    var chosen := Chosen(scan, researcher, status);
    PipelineOrders(chosen);
    var list := OrderByRankThenNewest(chosen);
    hide OrderByRankThenNewest, Chosen, Wanted, Ordered;
    forall v ensures multiset(list)[v] == (if Wanted(v, researcher, status) then multiset(scan)[v] else 0) {
      ChosenCounts(scan, researcher, status, v);
    }
  }

  lemma SameMembers(list: seq<Review>, scan: seq<Review>, researcher: Option<string>, status: Option<Status>)
    requires forall v :: multiset(list)[v] == if Wanted(v, researcher, status) then multiset(scan)[v] else 0
    ensures forall v :: v in list <==> v in scan && Wanted(v, researcher, status)
  {
    forall v ensures v in list <==> v in scan && Wanted(v, researcher, status) {
      assert v in list <==> v in multiset(list);
      assert v in scan <==> v in multiset(scan);
    }
  }

  lemma NoRepeats(list: seq<Review>, rows: multiset<Review>)
    requires DistinctIds(rows) && forall v :: multiset(list)[v] <= rows[v]
    ensures forall i, j :: 0 <= i < j < |list| ==> list[i].id != list[j].id
  {
    forall i, j | 0 <= i < j < |list| ensures list[i].id != list[j].id {
      assert list[i] in multiset(list) && list[j] in multiset(list);
      assert multiset(list)[list[i]] <= rows[list[i]] && multiset(list)[list[j]] <= rows[list[j]];
      if list[i] == list[j] { RepeatCounts(list, i, j); }
    }
  }

  lemma RepeatCounts(rows: seq<Review>, i: nat, j: nat)
    requires i < j < |rows| && rows[i] == rows[j]
    ensures multiset(rows)[rows[i]] >= 2
  {
    assert rows == rows[..i] + [rows[i]] + rows[i + 1..j] + [rows[j]] + rows[j + 1..];
  }

  /** How many rows `count` full pages hold. */
  function RowsOf(count: int, size: int): (n: int)
    ensures count >= 0 && size >= 0 ==> n >= 0
  {
    count * size
  }

  /** What a caller collects by asking for pages 1 to `count`. */
  function Pages(scan: seq<Review>, researcher: Option<string>, status: Option<Status>, size: int,
      count: nat): seq<Review>
    requires 1 <= size <= 100 && RowsOf(count - 1, size) <= INT_MAX
  {
    if count == 0 then []
    else
      FewerRows(count, size);
      Pages(scan, researcher, status, size, count - 1) + Pipeline(scan, researcher,
          Options(status, Some(count), Some(size)))
  }

  /** The pages of an unchanged store are the unpaged list, cut in order and without gap or overlap. */
  lemma {:induction false} PagesAreTheList(scan: seq<Review>, researcher: Option<string>, status: Option<Status>,
      size: int, count: nat)
    requires 1 <= size <= 100 && RowsOf(count - 1, size) <= INT_MAX
    ensures var list := Pipeline(scan, researcher, Options(status, None, None));
            Pages(scan, researcher, status, size, count) == list[..Min(RowsOf(count, size), |list|)]
  {
    hide Pages, Pipeline, OptionsOk, Page, OrderByRankThenNewest, Chosen, RowsOf;
    if count == 0 {
      NoPages(scan, researcher, status, size);
    } else {
      FewerRows(count, size);
      PagesStep(scan, researcher, status, size, count);
      PagesAreTheList(scan, researcher, status, size, count - 1);
      NextPage(OrderByRankThenNewest(Chosen(scan, researcher, status)), Options(status, Some(count), Some(size)));
    }
  }

  lemma NoPages(scan: seq<Review>, researcher: Option<string>, status: Option<Status>, size: int)
    requires 1 <= size <= 100 && RowsOf(-1, size) <= INT_MAX
    ensures RowsOf(0, size) == 0 && Pages(scan, researcher, status, size, 0) == []
  {
  }

  lemma PagesStep(scan: seq<Review>, researcher: Option<string>, status: Option<Status>, size: int, count: nat)
    requires 1 <= size <= 100 && RowsOf(count - 1, size) <= INT_MAX && count > 0
    ensures var list := OrderByRankThenNewest(Chosen(scan, researcher, status));
            var o := Options(status, Some(count), Some(size));
            && OptionsOk(o) && RowsOf(count - 2, size) <= INT_MAX
            && Pages(scan, researcher, status, size, count)
               == Pages(scan, researcher, status, size, count - 1) + Page(list, o)
            && Pipeline(scan, researcher, Options(status, None, None)) == list
  {
    FewerRows(count, size);
    hide OrderByRankThenNewest, Chosen, Skip, Take;
  }

  lemma FewerRows(count: nat, size: nat)
    requires count > 0
    ensures RowsOf(count - 2, size) == RowsOf(count - 1, size) - size
    ensures RowsOf(count, size) == RowsOf(count - 1, size) + size && RowsOf(count - 1, size) >= 0
  {
  }

  lemma NextPage(list: seq<Review>, o: Options)
    requires OptionsOk(o) && IsPaged(o)
    ensures var from := RowsOf(o.page.value - 1, o.pageSize.value);
            0 <= from && list[..Min(from, |list|)] + Page(list, o) == list[..Min(from + o.pageSize.value, |list|)]
  {
    var from := RowsOf(o.page.value - 1, o.pageSize.value);
    WindowIsSkipTake(list, from, o.pageSize.value);
    PageFollows(list, from, o.pageSize.value);
  }

  lemma PageFollows(list: seq<Review>, from: int, size: int)
    requires 0 <= from && 0 <= size
    ensures list[..Min(from, |list|)] + list[Min(from, |list|)..Min(from, |list|)
        + Min(size, |list| - Min(from, |list|))]
            == list[..Min(from + size, |list|)]
  {
  }

  // ----- the actor's scope (coordinator-dotnet/Services/ReviewService.cs:44-45)

  datatype Actor = Researcher(id: string) | Reviewer(id: string)

  function Scope(actor: Actor): Option<string> {
    if actor.Researcher? then Some(actor.id) else None
  }

  /** ReviewService.List on the pipeline. */
  function List(actor: Actor, scan: seq<Review>, o: Options): (r: seq<Review>)
    requires OptionsOk(o)
  {
    Pipeline(scan, Scope(actor), o)
  }
}

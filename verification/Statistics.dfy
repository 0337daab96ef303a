/** The daily statistics of the page: which days a report asks for, and when the provider's rows may be
    summed.  Times are milliseconds. */
module Statistics {
  import opened Wrappers
  import opened JsonText

  const DAY_MS: int := 86400000

  const REPORTS: set<string> := {"page_statistics", "followers", "posts"}

  type Interval = (int, int)

  // ----- the request -----------------------------------------------------------------------

  type Code = string

  datatype Request = Request(start: int, end: int, limit: nat)

  /** One or two digits without a leading zero. */
  function Small(text: string): (n: Option<nat>)
    ensures n.Some? ==> 1 <= n.value <= 99 && text == Digits(n.value)
  {
    if 1 <= |text| <= 2 && (forall c | c in text :: IsDigit(c)) && text[0] != '0' then
      ValueOfShort(text);
      Some(Value(text))
    else None
  }

  lemma OneDigit(c: char)
    requires IsDigit(c)
    ensures Value([c]) == c as int - '0' as int && Digits(Value([c])) == [c]
  {
    assert [c][..0] == "";
    assert Value([c]) == Value("") * 10 + (c as int - '0' as int);
  }

  lemma DigitsSplit(n: nat, d: nat)
    requires 1 <= n && d <= 9
    ensures Digits(n * 10 + d) == Digits(n) + ['0' + d as char]
  {
    var m := n * 10 + d;
    assert m / 10 == n && m % 10 == d;
  }

  lemma ValueOfShort(text: string)
    requires 1 <= |text| <= 2 && (forall c | c in text :: IsDigit(c)) && text[0] != '0'
    ensures 1 <= Value(text) <= 99 && text == Digits(Value(text))
  {
    hide Digits;
    assert text[0] in text;
    OneDigit(text[0]);
    if |text| == 1 {
      assert text == [text[0]];
    } else {
      var last := text[1] as int - '0' as int;
      assert text[1] in text && text[..1] == [text[0]];
      assert Value(text) == Value([text[0]]) * 10 + last;
      hide Value;
      DigitsSplit(Value([text[0]]), last);
      assert text == [text[0]] + [text[1]];
    }
  }

  /** A number from 1 to 99 is read from its decimal form and from nothing else. */
  lemma SmallIsDecimal(text: string, n: nat)
    ensures Small(text) == Some(n) <==> 1 <= n <= 99 && text == Digits(n)
  {
    if 1 <= n <= 99 && text == Digits(n) {
      ValueOfDigits(n);
      if n >= 10 {
        assert text == Digits(n / 10) + [text[1]] && Digits(n / 10) == [text[0]];
      }
    }
  }

  /** The report covers this many whole days. */
  predicate Covers(r: Request, days: nat) {
    1 <= days <= 90 && r.end == r.start + days * DAY_MS
  }

  type Arguments = map<string, string>

  function ArgumentOr(args: Arguments, name: string, default: string): string {
    if name in args then args[name] else default
  }

  function ArgumentsOf(pairs: seq<(string, string)>): (args: Arguments)
    ensures args.Keys == set k | 0 <= k < |pairs| :: pairs[k].0
  {
    if pairs == [] then map[]
    else
      var last := pairs[|pairs| - 1];
      ArgumentsOf(pairs[..|pairs| - 1])[last.0 := last.1]
  }

  function AllowedFor(report: string): set<string> {
    if report == "posts" then {"limit"} else {"period_days", "end_date"}
  }

  /** Only arguments of the report, each once. */
  predicate WellNamed(report: string, pairs: seq<(string, string)>) {
    && (forall i | 0 <= i < |pairs| :: pairs[i].0 in AllowedFor(report))
    && (forall i, j | 0 <= i < j < |pairs| :: pairs[i].0 != pairs[j].0)
  }

  function DaysOf(args: Arguments): Option<nat> {
    Small(ArgumentOr(args, "period_days", "7"))
  }

  function LimitOf(args: Arguments): Option<nat> {
    Small(ArgumentOr(args, "limit", "10"))
  }

  /** The newest day the report can cover. */
  function LatestFor(report: string, today: int): int {
    today - (if report == "followers" then 2 else 1)
  }

  function LastDay(report: string, args: Arguments, today: int, dayOf: string -> Option<int>): Option<int> {
    if "end_date" in args then dayOf(args["end_date"]) else Some(LatestFor(report, today))
  }

  /** What a request has to be, whatever the date. */
  predicate WellFormed(report: string, pairs: seq<(string, string)>, today: int, dayOf: string -> Option<int>) {
    var args := ArgumentsOf(pairs);
    && WellNamed(report, pairs)
    && DaysOf(args).Some? && DaysOf(args).value <= 90 && LimitOf(args).Some? && LimitOf(args).value <= 10
    && LastDay(report, args, today, dayOf).Some?
  }

  /** `parse_request`.  Days are numbered from the epoch; `dayOf` reads a date strictly.  Which requests are accepted,
      what they ask for, and why the others are refused. */
  method ParseRequest(report: string, pairs: seq<(string, string)>, today: int, dayOf: string -> Option<int>)
    returns (r: Result<Request, Code>)
    ensures r.Ok? <==>
              && report in REPORTS && WellFormed(report, pairs, today, dayOf)
              && LastDay(report, ArgumentsOf(pairs), today, dayOf).value <= LatestFor(report, today)
    ensures r.Ok? ==>
              var args := ArgumentsOf(pairs);
              && DaysOf(args).Some? && Covers(r.value, DaysOf(args).value)
              && r.value.end == (LastDay(report, args, today, dayOf).value + 1) * DAY_MS
              && Some(r.value.limit) == LimitOf(args) && 1 <= r.value.limit <= 10
    ensures r.Ok? ==> r.value.end % 86400000 == 0 && 86400000 <= r.value.end - r.value.start <= 90 * 86400000
    ensures r.Ok? ==> r.value.end <= (today - (if report == "followers" then 1 else 0)) * 86400000
    ensures report in {"page_statistics", "followers", "posts"} && pairs == [] ==>
              r.Ok? && r.value.limit == 10 && r.value.end - r.value.start == 7 * 86400000
    ensures r.Err? ==>
              r.error == if report !in REPORTS then "route_not_found"
                         else if !WellFormed(report, pairs, today, dayOf) then "invalid_input"
                         else "end_date_not_available"
  {
    hide Small, Digits;
    Defaults();
    if report !in REPORTS {
      return Err("route_not_found");
    }
    var allowed := AllowedFor(report);
    var args: Arguments := map[];
    for i := 0 to |pairs|
      invariant args == ArgumentsOf(pairs[..i]) && WellNamed(report, pairs[..i])
    {
      var (name, value) := pairs[i];
      ArgumentsMore(pairs, i);
      NamedMore(report, pairs, i);
      if name !in allowed || name in args {
        return Err("invalid_input");
      }
      args := args[name := value];
    }
    assert pairs[..|pairs|] == pairs;
    var days, limit := Small(ArgumentOr(args, "period_days", "7")), Small(ArgumentOr(args, "limit", "10"));
    if days == None || days.value > 90 || limit == None || limit.value > 10 {
      return Err("invalid_input");
    }
    var latest := today - (if report == "followers" then 2 else 1);
    var end := if "end_date" in args then dayOf(args["end_date"]) else Some(latest);
    if end == None {
      return Err("invalid_input");
    }
    if end.value > latest {
      return Err("end_date_not_available");
    }
    WholeDays(end.value + 1, days.value);
    r := Ok(Request((end.value + 1 - days.value) * DAY_MS, (end.value + 1) * DAY_MS, limit.value));
    assert Covers(r.value, days.value);
  }

  lemma ArgumentsMore(pairs: seq<(string, string)>, i: nat)
    requires i < |pairs|
    ensures ArgumentsOf(pairs[..i + 1]) == ArgumentsOf(pairs[..i])[pairs[i].0 := pairs[i].1]
    ensures pairs[i].0 in ArgumentsOf(pairs[..i]) <==> exists k | 0 <= k < i :: pairs[k].0 == pairs[i].0
  {
    var earlier := pairs[..i];
    assert pairs[..i + 1][..i] == earlier;
    if k :| 0 <= k < i && pairs[k].0 == pairs[i].0 {
      assert earlier[k].0 == pairs[i].0;
    }
  }

  /** What the arguments of a report are: the days it covers and their last one for the statistics, the number of posts for
      the posts, each in its range and none beside. */
  lemma ArgumentsByReport(report: string, name: string, value: string, n: nat, today: int, dayOf: string -> Option<int>)
    requires report in {"page_statistics", "followers", "posts"}
    ensures WellFormed(report, [(name, value)], today, dayOf) <==>
              if report == "posts" then name == "limit" && exists k | 1 <= k <= 10 :: value == Digits(k)
              else || (name == "period_days" && exists k | 1 <= k <= 90 :: value == Digits(k))
                   || (name == "end_date" && dayOf(value).Some?)
    ensures name == "period_days" && value == Digits(n) && 1 <= n <= 90 ==> DaysOf(ArgumentsOf([(name, value)])) == Some(n)
    ensures name == "limit" && value == Digits(n) && 1 <= n <= 10 ==> LimitOf(ArgumentsOf([(name, value)])) == Some(n)
    ensures LastDay(report, ArgumentsOf([(name, value)]), today, dayOf)
         == if name == "end_date" then dayOf(value) else Some(today - if report == "followers" then 2 else 1)
  {
    hide Small, Digits;
    OneArgument(name, value);
    Defaults();
    SmallIsDecimal(value, n);
    SmallWithin(value);
    assert "limit"[0] == 'l' && "period_days"[0] == 'p' && "end_date"[0] == 'e';
  }

  lemma OneArgument(name: string, value: string)
    ensures ArgumentsOf([(name, value)]) == map[name := value]
  {
    assert [(name, value)][..0] == [];
  }

  lemma SmallWithin(value: string)
    ensures Small(value).Some? && Small(value).value <= 10 <==> exists k | 1 <= k <= 10 :: value == Digits(k)
    ensures Small(value).Some? && Small(value).value <= 90 <==> exists k | 1 <= k <= 90 :: value == Digits(k)
  {
    hide Digits, Value;
    var r := Small(value);
    assert r.Some? ==> value == Digits(r.value) && 1 <= r.value;
    if k :| 1 <= k <= 10 && value == Digits(k) {
      SmallIsDecimal(value, k);
    }
    if k :| 1 <= k <= 90 && value == Digits(k) {
      SmallIsDecimal(value, k);
    }
  }

  /** Without arguments a request asks for seven days and ten posts. */
  lemma Defaults()
    ensures Small("7") == Some(7) && Small("10") == Some(10)
  {
    SmallIsDecimal("7", 7);
    SmallIsDecimal("10", 10);
    assert Digits(10) == Digits(1) + ['0'];
  }

  /** One more pair: it is allowed and new, or the whole request is not well named. */
  lemma NamedMore(report: string, pairs: seq<(string, string)>, i: nat)
    requires i < |pairs| && WellNamed(report, pairs[..i])
    ensures if pairs[i].0 in AllowedFor(report) && pairs[i].0 !in ArgumentsOf(pairs[..i])
            then WellNamed(report, pairs[..i + 1]) else !WellNamed(report, pairs)
  {
    ArgumentsMore(pairs, i);
    hide AllowedFor, ArgumentsOf;
    assert forall k | 0 <= k < i :: pairs[..i][k] == pairs[k] == pairs[..i + 1][k];
  }

  lemma WholeDays(end: int, days: nat)
    ensures end * DAY_MS == (end - days) * DAY_MS + days * DAY_MS && (end * DAY_MS) % DAY_MS == 0
  {
  }

  // ----- the rows --------------------------------------------------------------------------

  /** The days from `start` on, as the report expects them. */
  function Expected(start: int, days: nat): seq<Interval> {
    seq(days, k requires 0 <= k < days => (start + k * DAY_MS, start + (k + 1) * DAY_MS))
  }

  /** Python's order of pairs. */
  predicate AtMost(a: Interval, b: Interval) {
    a.0 < b.0 || (a.0 == b.0 && a.1 <= b.1)
  }

  predicate Ordered(s: seq<Interval>) {
    forall i, j | 0 <= i < j < |s| :: AtMost(s[i], s[j])
  }

  function Insert(x: Interval, s: seq<Interval>): seq<Interval> {
    if s == [] || AtMost(x, s[0]) then [x] + s else [s[0]] + Insert(x, s[1..])
  }

  /** `sorted`. */
  function Sorted(s: seq<Interval>): seq<Interval> {
    if s == [] then [] else Insert(s[0], Sorted(s[1..]))
  }

  /** The test before the sum. */
  predicate Accepted(rows: seq<Interval>, start: int, days: nat) {
    Sorted(rows) == Expected(start, days)
  }

  lemma {:induction false} InsertKeeps(x: Interval, s: seq<Interval>)
    requires Ordered(s)
    ensures Ordered(Insert(x, s)) && multiset(Insert(x, s)) == multiset{x} + multiset(s)
  {
    if s == [] || AtMost(x, s[0]) {
    } else {
      InsertKeeps(x, s[1..]);
      var rest := Insert(x, s[1..]);
      assert s == [s[0]] + s[1..];
      forall i | 0 <= i < |rest| ensures AtMost(s[0], rest[i]) {
        assert rest[i] in multiset(rest);
        assert rest[i] == x || rest[i] in s[1..];
      }
    }
  }

  lemma {:induction false} SortedKeeps(s: seq<Interval>)
    ensures Ordered(Sorted(s)) && multiset(Sorted(s)) == multiset(s)
  {
    if s != [] {
      SortedKeeps(s[1..]);
      InsertKeeps(s[0], Sorted(s[1..]));
      assert s == [s[0]] + s[1..];
    }
  }

  lemma SmallestFirst(a: seq<Interval>, b: seq<Interval>)
    requires Ordered(a) && Ordered(b) && a != [] && b != [] && a[0] in b && b[0] in a
    ensures a[0] == b[0]
  {
    var i, j :| 0 <= i < |b| && b[i] == a[0] && 0 <= j < |a| && a[j] == b[0];
    assert AtMost(b[0], b[i]) && AtMost(a[0], a[j]);
  }

  lemma TailCounts<T>(s: seq<T>)
    requires s != []
    ensures s == [s[0]] + s[1..] && multiset(s[1..]) == multiset(s) - multiset{s[0]}
  {
    assert s == [s[0]] + s[1..];
  }

  /** Two ordered sequences with the same elements are the same. */
  lemma {:induction false} OrderedUnique(a: seq<Interval>, b: seq<Interval>)
    requires Ordered(a) && Ordered(b) && multiset(a) == multiset(b)
    ensures a == b
    decreases |a|
  {
    hide AtMost;
    assert |a| == |multiset(a)| == |b|;
    if a != [] {
      assert a[0] in multiset(a) && b[0] in multiset(b);
      SmallestFirst(a, b);
      TailCounts(a);
      TailCounts(b);
      OrderedUnique(a[1..], b[1..]);
    }
  }

  lemma DayOrder(start: int, i: nat, j: nat)
    requires i < j
    ensures start + i * DAY_MS < start + (i + 1) * DAY_MS <= start + j * DAY_MS
  {
  }

  lemma ExpectedOrdered(start: int, days: nat)
    ensures Ordered(Expected(start, days))
    ensures forall i, j | 0 <= i < j < days :: Expected(start, days)[i] != Expected(start, days)[j]
  {
    forall i, j | 0 <= i < j < days
      ensures AtMost(Expected(start, days)[i], Expected(start, days)[j])
      ensures Expected(start, days)[i] != Expected(start, days)[j]
    {
      DayOrder(start, i, j);
    }
  }

  /** The rows are accepted exactly if they are the expected days, each once, in any order. */
  lemma AcceptedIsTheDays(rows: seq<Interval>, start: int, days: nat)
    ensures Accepted(rows, start, days) <==> multiset(rows) == multiset(Expected(start, days))
  {
    SortedKeeps(rows);
    ExpectedOrdered(start, days);
    if multiset(rows) == multiset(Expected(start, days)) {
      OrderedUnique(Sorted(rows), Expected(start, days));
    }
  }

  predicate Holds(row: Interval, t: int) {
    row.0 <= t < row.1
  }

  lemma TwiceInMultiset<T>(s: seq<T>, i: nat, j: nat)
    requires i < j < |s|
    ensures s[i] == s[j] ==> multiset(s)[s[i]] >= 2
  {
    assert s == s[..j] + s[j..] && s[i] in s[..j] && s[j] == s[j..][0];
    assert multiset(s) == multiset(s[..j]) + multiset(s[j..]);
    assert s[i] in multiset(s[..j]) && s[j] in multiset(s[j..]);
  }

  lemma {:induction false} DistinctOnce<T>(s: seq<T>, x: T)
    requires forall i, j | 0 <= i < j < |s| :: s[i] != s[j]
    ensures multiset(s)[x] <= 1
    decreases |s|
  {
    if s != [] {
      assert s == [s[0]] + s[1..];
      DistinctOnce(s[1..], x);
      if x == s[0] {
        assert x !in s[1..];
        assert x !in multiset(s[1..]);
      }
    }
  }

  /** The day of an instant. */
  function DayAt(start: int, t: int): int {
    (t - start) / DAY_MS
  }

  lemma DayHolds(start: int, days: nat, t: int)
    requires start <= t < start + days * DAY_MS
    ensures 0 <= DayAt(start, t) < days
    ensures Holds(Expected(start, days)[DayAt(start, t)], t)
    ensures forall k | 0 <= k < days :: Holds(Expected(start, days)[k], t) ==> k == DayAt(start, t)
  {
    var d := DayAt(start, t);
    assert t - start == d * DAY_MS + (t - start) % DAY_MS;
    forall k | 0 <= k < days && Holds(Expected(start, days)[k], t) ensures k == d {
      assert k * DAY_MS <= t - start < (k + 1) * DAY_MS;
    }
  }

  /** What may be summed counts every instant of the asked days exactly once, and nothing outside them: no gap, no
      overlap, no duplicate, no foreign day. */
  lemma AcceptedCoversOnce(rows: seq<Interval>, start: int, days: nat, t: int)
    requires Accepted(rows, start, days) && start <= t < start + days * DAY_MS
    ensures exists i | 0 <= i < |rows| :: Holds(rows[i], t)
    ensures forall i, j | 0 <= i < |rows| && 0 <= j < |rows| :: Holds(rows[i], t) && Holds(rows[j], t) ==> i == j
    ensures forall i | 0 <= i < |rows| :: start <= rows[i].0 && rows[i].1 <= start + days * DAY_MS
  {
    var expected := Expected(start, days);
    AcceptedIsTheDays(rows, start, days);
    DayHolds(start, days, t);
    var day := expected[DayAt(start, t)];
    assert day in multiset(expected) && day in multiset(rows) && day in rows;
    forall i | 0 <= i < |rows|
      ensures start <= rows[i].0 && rows[i].1 <= start + days * DAY_MS && (Holds(rows[i], t) ==> rows[i] == day)
    {
      assert rows[i] in multiset(rows) && rows[i] in multiset(expected) && rows[i] in expected;
      var k :| 0 <= k < days && expected[k] == rows[i];
      assert 0 <= k * DAY_MS && (k + 1) * DAY_MS <= days * DAY_MS;
    }
    ExpectedOrdered(start, days);
    DistinctOnce(expected, day);
    forall i, j | 0 <= i < j < |rows| ensures rows[i] == rows[j] ==> multiset(rows)[rows[i]] >= 2 {
      TwiceInMultiset(rows, i, j);
    }
  }
}

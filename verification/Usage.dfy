/**
 Token accounting in two levels: requests into tasks, tasks into a batch.  When the second level
 agrees with counting all requests at once.
 */
module Usage {
  import opened Options

  datatype Field = Input | Output | Total | Cached | CacheMiss | Reasoning

  const FIELDS: seq<Field> := [Input, Output, Total, Cached, CacheMiss, Reasoning]

  lemma {:induction false} EveryField()
    ensures forall f :: f in FIELDS
  {
    forall f: Field ensures f in FIELDS {
      match f
      case Input => assert FIELDS[0] == f;
      case Output => assert FIELDS[1] == f;
      case Total => assert FIELDS[2] == f;
      case Cached => assert FIELDS[3] == f;
      case CacheMiss => assert FIELDS[4] == f;
      case Reasoning => assert FIELDS[5] == f;
    }
  }

  /** What a provider reported for one request; `None` when it reported nothing. */
  type Item = Option<map<Field, int>>

  datatype Coverage = Unavailable | Partial | Complete

  datatype Summary = Summary(
    requests: nat, withUsage: nat, coverage: Coverage, ratio: Option<real>,
    totals: map<Field, Option<int>>, complete: map<Field, bool>, derived: bool)

  // ---------------------------------------------------------------- sums over requests

  predicate Reports(item: Item, f: Field) { item.Some? && f in item.value }

  function Known(items: seq<Item>): nat {
    if items == [] then 0 else Known(items[..|items| - 1]) + if items[|items| - 1].Some? then 1 else 0
  }

  function Count(items: seq<Item>, f: Field): nat {
    if items == [] then 0 else Count(items[..|items| - 1], f) + if Reports(items[|items| - 1], f) then 1 else 0
  }

  function Sum(items: seq<Item>, f: Field): int {
    if items == [] then 0
    else Sum(items[..|items| - 1], f) + if Reports(items[|items| - 1], f) then items[|items| - 1].value[f] else 0
  }

  lemma {:induction false} SumsAppend(a: seq<Item>, b: seq<Item>, f: Field)
    ensures Known(a + b) == Known(a) + Known(b)
    ensures Count(a + b, f) == Count(a, f) + Count(b, f)
    ensures Sum(a + b, f) == Sum(a, f) + Sum(b, f)
  {
    if b == [] {
      assert a + b == a;
    } else {
      SumsAppend(a, b[..|b| - 1], f);
      assert (a + b)[..|a + b| - 1] == a + b[..|b| - 1];
    }
  }

  /** The figures of one request. */
  lemma {:induction false} OneItem(item: Item, f: Field)
    ensures Known([item]) == (if item.Some? then 1 else 0) && Count([item], f) == (if Reports(item, f) then 1 else 0)
    ensures Sum([item], f) == if item.Some? && f in item.value then item.value[f] else 0
  {
    assert [item][..0] == [];
  }

  lemma {:induction false} KnownMeaning(items: seq<Item>)
    ensures Known(items) == |items| <==> forall i | 0 <= i < |items| :: items[i].Some?
    ensures Known(items) == 0 <==> forall i | 0 <= i < |items| :: items[i].None?
    ensures Known(items) <= |items|
  {
    if items != [] { KnownMeaning(items[..|items| - 1]); }
  }

  lemma {:induction false} CountsAreBounded(items: seq<Item>, f: Field)
    ensures Count(items, f) <= Known(items) <= |items|
  {
    if items != [] { CountsAreBounded(items[..|items| - 1], f); }
  }

  lemma {:induction false} KnownBeforeCount(items: seq<Item>, f: Field)
    ensures Known(items) > 0 && Count(items, f) == |items| ==> Count(items, f) > 0
  {
    CountsAreBounded(items, f);
  }

  // ---------------------------------------------------------------- one level

  function CoverageOf(requests: nat, known: nat): Coverage {
    if requests == 0 || known == 0 then Unavailable else if known == requests then Complete else Partial
  }

  function RatioOf(requests: nat, known: nat): Option<real> {
    if requests == 0 then None else Some(known as real / requests as real)
  }

  /** Coverage is complete when every request reported something, unavailable when none did, and partial otherwise. */
  lemma {:induction false} CoverageMeaning(items: seq<Item>)
    ensures var r := SummaryOf(items);
            && r.requests == |items|
            && (r.coverage == Complete <==> items != [] && forall i | 0 <= i < |items| :: items[i].Some?)
            && (r.coverage == Unavailable <==> forall i | 0 <= i < |items| :: items[i].None?)
            && (r.ratio.None? <==> items == [])
            && (items != [] ==> r.ratio.value * |items| as real == r.withUsage as real)
  {
    KnownMeaning(items);
  }

  predicate AllReport(items: seq<Item>, f: Field) { Known(items) > 0 && Count(items, f) == |items| }

  /** No request reports its cache misses, and every one reports what they follow from. */
  predicate Derivable(items: seq<Item>) {
    Count(items, CacheMiss) == 0 && AllReport(items, Input) && AllReport(items, Cached)
  }

  function TotalOf(items: seq<Item>, f: Field): Option<int> {
    if f == CacheMiss && Derivable(items) then Some(Sum(items, Input) - Sum(items, Cached))
    else if Count(items, f) > 0 then Some(Sum(items, f)) else None
  }

  predicate CompleteOf(items: seq<Item>, f: Field) { AllReport(items, f) || (f == CacheMiss && Derivable(items)) }

  function SummaryOf(items: seq<Item>): Summary {
    Summary(|items|, Known(items), CoverageOf(|items|, Known(items)), RatioOf(|items|, Known(items)),
            map f: Field :: TotalOf(items, f), map f: Field :: CompleteOf(items, f), Derivable(items))
  }

  lemma {:induction false} CountMeaning(items: seq<Item>, f: Field)
    ensures Count(items, f) > 0 <==> exists i | 0 <= i < |items| :: Reports(items[i], f)
    ensures Count(items, f) == |items| <==> forall i | 0 <= i < |items| :: Reports(items[i], f)
    ensures Count(items, f) <= |items|
  {
    if items != [] { CountMeaning(items[..|items| - 1], f); }
  }

  /**
   A total is there when some request reports the field, and complete when every one does.  Cache
   misses that nobody reports follow, where every request reports what they follow from: they are
   then what the cached part leaves of the input.
   */
  lemma {:induction false} TotalsMeaning(items: seq<Item>, f: Field)
    requires items != []
    ensures var r, all := SummaryOf(items), forall i | 0 <= i < |items| :: Reports(items[i], f);
            && (r.derived <==>
                  forall i | 0 <= i < |items| ::
                    Reports(items[i], Input) && Reports(items[i], Cached) && !Reports(items[i], CacheMiss))
            && (r.derived && f == CacheMiss ==>
                  r.complete[f] && r.totals[f].Some? && r.totals[Cached].Some? && r.totals[Input].Some?
                  && r.totals[f].value + r.totals[Cached].value == r.totals[Input].value)
            && (!(r.derived && f == CacheMiss) ==>
                  && (r.complete[f] <==> all)
                  && (r.totals[f].Some? <==> exists i | 0 <= i < |items| :: Reports(items[i], f))
                  && (r.totals[f].Some? ==> r.totals[f].value == Sum(items, f)))
  {
    hide Reports, Known, Count, Sum;
    KnownMeaning(items);
    CountMeaning(items, f);
    CountMeaning(items, Input);
    CountMeaning(items, Cached);
    CountMeaning(items, CacheMiss);
    SomeReported(items, f);
    SomeReported(items, Input);
    SomeReported(items, Cached);
  }

  /** A request that reports a field reported something. */
  lemma {:induction false} SomeReported(items: seq<Item>, f: Field)
    requires items != []
    ensures Count(items, f) == |items| ==> Known(items) > 0
  {
    CountsAreBounded(items, f);
  }

  const ZERO: Summary := Summary(0, 0, Complete, Some(1.0), map f: Field :: Some(0), map f: Field :: true, false)

  function Reported(items: seq<Item>, f: Field): Option<int> { if Count(items, f) > 0 then Some(Sum(items, f)) else None }

  /** The requests that reported anything. */
  method CountKnown(items: seq<Item>) returns (known: nat)
    ensures known == Known(items)
  {
    known := 0;
    for i := 0 to |items|
      invariant known == Known(items[..i])
    {
      assert items[..i + 1][..i] == items[..i];
      if items[i].Some? { known := known + 1; }
    }
    assert items[..|items|] == items;
  }

  /** How many requests report one field, and the sum of what they report. */
  method Tally(items: seq<Item>, f: Field) returns (count: nat, sum: int)
    ensures count == Count(items, f) && sum == Sum(items, f)
  {
    count, sum := 0, 0;
    for i := 0 to |items|
      invariant count == Count(items[..i], f) && sum == Sum(items[..i], f)
    {
      assert items[..i + 1][..i] == items[..i];
      if Reports(items[i], f) { count, sum := count + 1, sum + items[i].value[f]; }
    }
    assert items[..|items|] == items;
  }

  /** The field loop of `aggregate_usage`. */
  method FieldSums(items: seq<Item>, known: nat) returns (totals: map<Field, Option<int>>, complete: map<Field, bool>)
    requires known == Known(items)
    ensures forall f :: f in totals && totals[f] == Reported(items, f)
    ensures forall f :: f in complete && complete[f] == AllReport(items, f)
  {
    hide Known, Count, Sum;
    totals, complete := map[], map[];
    for k := 0 to |FIELDS|
      invariant forall f | f in FIELDS[..k] :: f in totals && totals[f] == Reported(items, f)
      invariant forall f | f in FIELDS[..k] :: f in complete && complete[f] == AllReport(items, f)
    {
      var f := FIELDS[k];
      assert FIELDS[..k + 1] == FIELDS[..k] + [f];
      var count, sum := Tally(items, f);
      totals := totals[f := if count > 0 then Some(sum) else None];
      complete := complete[f := known > 0 && count == |items|];
    }
    EveryField();
    assert FIELDS[..|FIELDS|] == FIELDS;
  }

  /** `aggregate_usage` */
  method AggregateUsage(items: seq<Item>) returns (r: Summary)
    ensures r == SummaryOf(items)
  {
    hide Count, Sum, Known;
    var known := CountKnown(items);
    var totals, complete := FieldSums(items, known);
    KnownBeforeCount(items, Input);
    KnownBeforeCount(items, Cached);
    var derived := totals[CacheMiss].None? && complete[Input] && complete[Cached];
    if derived {
      totals := totals[CacheMiss := Some(totals[Input].value - totals[Cached].value)];
      complete := complete[CacheMiss := true];
    }
    assert forall f :: f in totals && totals[f] == TotalOf(items, f);
    assert forall f :: f in complete && complete[f] == CompleteOf(items, f);
    hide TotalOf, CompleteOf;
    assert totals == map f: Field :: TotalOf(items, f);
    assert complete == map f: Field :: CompleteOf(items, f);
    r := Summary(|items|, known, CoverageOf(|items|, known), RatioOf(|items|, known), totals, complete, derived);
  }

  /** The usage of one task: `zero_usage` stands for a task that made no request. */
  function TaskUsage(items: seq<Item>): Summary { if items == [] then ZERO else SummaryOf(items) }

  // ---------------------------------------------------------------- two levels

  function Placeholders(known: nat, requests: nat): seq<Item> {
    seq(known, _ => Some(map[])) + seq(if requests > known then requests - known else 0, _ => None)
  }

  function Expanded(entries: seq<Option<Summary>>): seq<Item> {
    if entries == [] then []
    else
      var last := entries[|entries| - 1];
      Expanded(entries[..|entries| - 1]) + if last.None? then [None] else Placeholders(last.value.withUsage, last.value.requests)
  }

  predicate Idle(u: Option<Summary>) { u.Some? && u.value.requests == 0 && u.value.coverage.Complete? }

  /** Zero usage is known to be zero; no entry, or one of which nothing is known, is not. */
  lemma {:induction false} ZeroIsKnown()
    ensures Idle(Some(ZERO)) && !Idle(None) && !Idle(Some(SummaryOf([])))
  {
  }

  /** When the second level answers `zero_usage`. */
  predicate IsZero(entries: seq<Option<Summary>>, emptyIsZero: bool) {
    if entries == [] then emptyIsZero else forall u | u in entries :: Idle(u)
  }

  function TotalOfEntry(u: Summary, f: Field): Option<int> { if f in u.totals then u.totals[f] else None }

  predicate SomeValue(entries: seq<Option<Summary>>) { exists u | u in entries :: u.Some? }

  predicate AllValues(entries: seq<Option<Summary>>, f: Field) {
    forall u | u in entries && u.Some? :: TotalOfEntry(u.value, f).Some?
  }

  function SumValues(entries: seq<Option<Summary>>, f: Field): int {
    if entries == [] then 0
    else
      var last := entries[|entries| - 1];
      SumValues(entries[..|entries| - 1], f)
      + if last.Some? && TotalOfEntry(last.value, f).Some? then TotalOfEntry(last.value, f).value else 0
  }

  function SecondTotal(entries: seq<Option<Summary>>, f: Field): Option<int> {
    if SomeValue(entries) && AllValues(entries, f) then Some(SumValues(entries, f)) else None
  }

  predicate SecondComplete(entries: seq<Option<Summary>>, f: Field) {
    entries != [] && forall u | u in entries :: u.Some? && f in u.value.complete && u.value.complete[f]
  }

  /** What the second level says of entries that are not all idle. */
  ghost predicate SecondLevel(entries: seq<Option<Summary>>, r: Summary) {
    && (var all := SummaryOf(Expanded(entries));
        r.requests == all.requests && r.withUsage == all.withUsage && r.coverage == all.coverage && r.ratio == all.ratio)
    && (forall f :: f in r.totals && r.totals[f] == SecondTotal(entries, f))
    && (forall f :: f in r.complete && r.complete[f] == SecondComplete(entries, f))
    && r.derived == (entries != [] && forall u | u in entries :: u.Some? && u.value.derived)
  }

  /** One field of the second level. */
  method EntryField(entries: seq<Option<Summary>>, f: Field) returns (total: Option<int>, complete: bool)
    ensures total == SecondTotal(entries, f) && complete == SecondComplete(entries, f)
  {
    hide SomeValue, AllValues, SumValues, TotalOfEntry;
    NothingYet(f);
    var some, all, sum := false, true, 0;
    complete := entries != [];
    for i := 0 to |entries|
      invariant some == SomeValue(entries[..i]) && all == AllValues(entries[..i], f)
      invariant sum == SumValues(entries[..i], f)
      invariant complete == (entries != [] && forall u | u in entries[..i] :: u.Some? && f in u.value.complete && u.value.complete[f])
    {
      assert entries[..i + 1] == entries[..i] + [entries[i]];
      EntryStep(entries[..i], entries[i], f);
      match entries[i]
      case None => complete := false;
      case Some(u) =>
        some := true;
        match TotalOfEntry(u, f) {
          case None => all := false;
          case Some(value) => sum := sum + value;
        }
        complete := complete && f in u.complete && u.complete[f];
    }
    assert entries[..|entries|] == entries;
    total := if some && all then Some(sum) else None;
  }

  lemma {:induction false} NothingYet(f: Field)
    ensures !SomeValue([]) && AllValues([], f) && SumValues([], f) == 0
  {
  }

  lemma {:induction false} EntryStep(front: seq<Option<Summary>>, last: Option<Summary>, f: Field)
    ensures SomeValue(front + [last]) <==> SomeValue(front) || last.Some?
    ensures AllValues(front + [last], f) <==> AllValues(front, f) && (last.Some? ==> TotalOfEntry(last.value, f).Some?)
    ensures SumValues(front + [last], f) == SumValues(front, f)
            + if last.Some? && TotalOfEntry(last.value, f).Some? then TotalOfEntry(last.value, f).value else 0
    ensures forall u :: u in front + [last] <==> u in front || u == last
  {
    assert (front + [last])[..|front|] == front;
    assert last in front + [last];
    assert forall u :: u in front + [last] <==> u in front || u == last;
  }

  /** `_aggregate_entry_usage` */
  method AggregateEntries(entries: seq<Option<Summary>>, emptyIsZero: bool) returns (r: Summary)
    ensures if IsZero(entries, emptyIsZero) then r == ZERO else SecondLevel(entries, r)
  {
    hide SecondTotal, SecondComplete, Expanded, Count, Sum, Known, TotalOf, CompleteOf, Derivable;
    if IsZero(entries, emptyIsZero) { return ZERO; }
    var all := AggregateUsage(Expanded(entries));
    var totals: map<Field, Option<int>>, complete: map<Field, bool> := map[], map[];
    for k := 0 to |FIELDS|
      invariant totals.Keys == complete.Keys == set f | f in FIELDS[..k]
      invariant forall f | f in totals :: totals[f] == SecondTotal(entries, f) && complete[f] == SecondComplete(entries, f)
    {
      var f := FIELDS[k];
      assert FIELDS[..k + 1] == FIELDS[..k] + [f];
      var total, every := EntryField(entries, f);
      totals := totals[f := total];
      complete := complete[f := every];
    }
    EveryField();
    assert FIELDS[..6] == FIELDS;
    r := Summary(all.requests, all.withUsage, all.coverage, all.ratio, totals, complete,
                 entries != [] && forall u | u in entries :: u.Some? && u.value.derived);
  }

  // ---------------------------------------------------------------- when the levels agree

  function Flat(groups: seq<seq<Item>>): seq<Item> {
    if groups == [] then [] else Flat(groups[..|groups| - 1]) + groups[|groups| - 1]
  }

  function Tasks(groups: seq<seq<Item>>): (r: seq<Option<Summary>>)
    ensures |r| == |groups| && forall i | 0 <= i < |r| :: r[i] == Some(TaskUsage(groups[i]))
  {
    seq(|groups|, i requires 0 <= i < |groups| => Some(TaskUsage(groups[i])))
  }

  /** Every task with requests reports the field, or none does. */
  ghost predicate Even(groups: seq<seq<Item>>, f: Field) {
    || (forall g | g in groups && g != [] :: Count(g, f) > 0)
    || (forall g | g in groups :: Count(g, f) == 0)
  }

  lemma {:induction false} TaskStep(groups: seq<seq<Item>>)
    requires groups != []
    ensures Tasks(groups) == Tasks(groups[..|groups| - 1]) + [Some(TaskUsage(groups[|groups| - 1]))]
    ensures Tasks(groups)[..|groups| - 1] == Tasks(groups[..|groups| - 1])
  {
  }

  lemma {:induction false} InTasks(groups: seq<seq<Item>>, u: Option<Summary>)
    ensures u in Tasks(groups) <==> exists g | g in groups :: u == Some(TaskUsage(g))
  {
    if u in Tasks(groups) {
      var i :| 0 <= i < |groups| && Tasks(groups)[i] == u;
      assert groups[i] in groups;
    }
    if g :| g in groups && u == Some(TaskUsage(g)) {
      var i :| 0 <= i < |groups| && groups[i] == g;
      assert Tasks(groups)[i] == u;
    }
  }

  lemma {:induction false} FlatCounts(groups: seq<seq<Item>>, f: Field)
    ensures Count(Flat(groups), f) == 0 <==> forall g | g in groups :: Count(g, f) == 0
    ensures Count(Flat(groups), f) == |Flat(groups)| <==> forall g | g in groups :: Count(g, f) == |g|
    ensures Flat(groups) == [] <==> forall g | g in groups :: g == []
  {
    if groups != [] {
      var front, last := groups[..|groups| - 1], groups[|groups| - 1];
      FlatCounts(front, f);
      SumsAppend(Flat(front), last, f);
      CountsAreBounded(Flat(front), f);
      CountsAreBounded(last, f);
      assert forall g | g in groups :: g in front || g == last;
      assert forall g | g in front :: g in groups;
      assert last in groups;
    }
  }

  lemma {:induction false} PlaceholderCounts(known: nat, requests: nat)
    requires known <= requests
    ensures |Placeholders(known, requests)| == requests && Known(Placeholders(known, requests)) == known
    decreases requests
  {
    var all := Placeholders(known, requests);
    if requests > 0 {
      if requests > known {
        PlaceholderCounts(known, requests - 1);
        assert all[..|all| - 1] == Placeholders(known, requests - 1);
      } else {
        PlaceholderCounts(known - 1, requests - 1);
        assert all[..|all| - 1] == Placeholders(known - 1, requests - 1);
      }
    }
  }

  /** Requests and reported requests add up over the tasks, whatever was reported. */
  lemma {:induction false} CoverageAgrees(groups: seq<seq<Item>>)
    ensures |Expanded(Tasks(groups))| == |Flat(groups)| && Known(Expanded(Tasks(groups))) == Known(Flat(groups))
  {
    if groups != [] {
      var front, last := groups[..|groups| - 1], groups[|groups| - 1];
      CoverageAgrees(front);
      TaskStep(groups);
      CountsAreBounded(last, Input);
      var u := TaskUsage(last);
      PlaceholderCounts(u.withUsage, u.requests);
      SumsAppend(Expanded(Tasks(front)), Placeholders(u.withUsage, u.requests), Input);
      SumsAppend(Flat(front), last, Input);
    }
  }

  lemma {:induction false} TaskTotal(g: seq<Item>, f: Field)
    ensures TotalOfEntry(TaskUsage(g), f) == if g == [] then Some(0) else TotalOf(g, f)
    ensures g == [] ==> Count(g, f) == 0 && Sum(g, f) == 0
  {
  }

  /** The values of the tasks add up to the value of all requests. */
  lemma {:induction false} ValuesAddUp(groups: seq<seq<Item>>, f: Field)
    requires f != CacheMiss
    ensures SumValues(Tasks(groups), f) == Sum(Flat(groups), f)
  {
    if groups != [] {
      var front, last := groups[..|groups| - 1], groups[|groups| - 1];
      ValuesAddUp(front, f);
      TaskStep(groups);
      TaskTotal(last, f);
      SumsAppend(Flat(front), last, f);
      if Count(last, f) == 0 { NothingSums(last, f); }
    }
  }

  lemma {:induction false} NothingSums(items: seq<Item>, f: Field)
    requires Count(items, f) == 0
    ensures Sum(items, f) == 0
  {
    if items != [] { NothingSums(items[..|items| - 1], f); }
  }

  lemma {:induction false} ValuesOfTasks(groups: seq<seq<Item>>, f: Field)
    ensures SomeValue(Tasks(groups)) <==> groups != []
    ensures AllValues(Tasks(groups), f) <==> forall g | g in groups && g != [] :: TotalOf(g, f).Some?
  {
    if groups != [] { assert Tasks(groups)[0] in Tasks(groups); }
    forall g | g in groups ensures Some(TaskUsage(g)) in Tasks(groups) { InTasks(groups, Some(TaskUsage(g))); }
    forall u | u in Tasks(groups) ensures exists g | g in groups :: u == Some(TaskUsage(g)) { InTasks(groups, u); }
    forall g | g in groups ensures TotalOfEntry(TaskUsage(g), f) == if g == [] then Some(0) else TotalOf(g, f) { TaskTotal(g, f); }
  }

  /** For a field that is only reported: the two levels give the same total exactly when reporting is even. */
  lemma {:induction false} ReportedTotalsAgree(groups: seq<seq<Item>>, f: Field)
    requires f != CacheMiss && Flat(groups) != []
    ensures SecondTotal(Tasks(groups), f) == TotalOf(Flat(groups), f) <==> Even(groups, f)
  {
    ValuesOfTasks(groups, f);
    ValuesAddUp(groups, f);
    FlatCounts(groups, f);
    NonEmptyGroup(groups);
  }

  lemma {:induction false} NonEmptyGroup(groups: seq<seq<Item>>)
    requires Flat(groups) != []
    ensures groups != [] && exists g | g in groups :: g != []
  {
    FlatCounts(groups, Input);
  }

  lemma {:induction false} CompleteMeans(groups: seq<seq<Item>>, f: Field)
    requires Flat(groups) != []
    ensures AllReport(Flat(groups), f) <==> forall g | g in groups && g != [] :: AllReport(g, f)
  {
    FlatCounts(groups, f);
    CountsAreBounded(Flat(groups), f);
    forall g | g in groups ensures g != [] ==> (AllReport(g, f) <==> Count(g, f) == |g|) { CountsAreBounded(g, f); }
    forall g | g in groups && g == [] ensures Count(g, f) == |g| { }
  }

  lemma {:induction false} TaskComplete(groups: seq<seq<Item>>, f: Field)
    ensures SecondComplete(Tasks(groups), f) <==> groups != [] && forall g | g in groups && g != [] :: CompleteOf(g, f)
  {
    forall g | g in groups ensures Some(TaskUsage(g)) in Tasks(groups) { InTasks(groups, Some(TaskUsage(g))); }
    forall u | u in Tasks(groups) ensures exists g | g in groups :: u == Some(TaskUsage(g)) { InTasks(groups, u); }
    assert forall g | g in groups :: f in TaskUsage(g).complete && TaskUsage(g).complete[f] == (g == [] || CompleteOf(g, f));
  }

  // ---------------------------------------------------------------- cache misses

  lemma {:induction false} DerivableMeans(groups: seq<seq<Item>>)
    requires Flat(groups) != []
    ensures Derivable(Flat(groups)) <==> forall g | g in groups && g != [] :: Derivable(g)
  {
    FlatCounts(groups, CacheMiss);
    CompleteMeans(groups, Input);
    CompleteMeans(groups, Cached);
    assert forall g | g in groups && g == [] :: Count(g, CacheMiss) == 0;
  }

  lemma {:induction false} DerivedValuesAddUp(groups: seq<seq<Item>>)
    requires forall g | g in groups && g != [] :: Derivable(g)
    ensures SumValues(Tasks(groups), CacheMiss) == Sum(Flat(groups), Input) - Sum(Flat(groups), Cached)
  {
    if groups != [] {
      var front, last := groups[..|groups| - 1], groups[|groups| - 1];
      assert forall g | g in front :: g in groups;
      assert last in groups;
      DerivedValuesAddUp(front);
      TaskStep(groups);
      TaskTotal(last, CacheMiss);
      TaskTotal(last, Input);
      TaskTotal(last, Cached);
      SumsAppend(Flat(front), last, Input);
      SumsAppend(Flat(front), last, Cached);
    }
  }

  lemma {:induction false} ReportedValuesAddUp(groups: seq<seq<Item>>)
    requires forall g | g in groups && g != [] :: Count(g, CacheMiss) > 0
    ensures SumValues(Tasks(groups), CacheMiss) == Sum(Flat(groups), CacheMiss)
  {
    if groups != [] {
      var front, last := groups[..|groups| - 1], groups[|groups| - 1];
      assert forall g | g in front :: g in groups;
      assert last in groups;
      ReportedValuesAddUp(front);
      TaskStep(groups);
      TaskTotal(last, CacheMiss);
      SumsAppend(Flat(front), last, CacheMiss);
    }
  }

  /** What the tasks without reported cache misses derive, together. */
  function DerivedPart(groups: seq<seq<Item>>): int {
    if groups == [] then 0
    else
      var last := groups[|groups| - 1];
      DerivedPart(groups[..|groups| - 1]) + if Derivable(last) then Sum(last, Input) - Sum(last, Cached) else 0
  }

  lemma {:induction false} MixedValuesAddUp(groups: seq<seq<Item>>)
    requires forall g | g in groups && g != [] :: Count(g, CacheMiss) > 0 || Derivable(g)
    ensures SumValues(Tasks(groups), CacheMiss) == Sum(Flat(groups), CacheMiss) + DerivedPart(groups)
  {
    if groups != [] {
      var front, last := groups[..|groups| - 1], groups[|groups| - 1];
      assert forall g | g in front :: g in groups;
      assert last in groups;
      MixedValuesAddUp(front);
      TaskStep(groups);
      TaskTotal(last, CacheMiss);
      SumsAppend(Flat(front), last, CacheMiss);
      if Count(last, CacheMiss) == 0 { NothingSums(last, CacheMiss); }
    }
  }

  /** When the two levels give the same total. */
  ghost predicate SameTotal(groups: seq<seq<Item>>, f: Field) {
    || Even(groups, f)
    || (&& f == CacheMiss
        && (forall g | g in groups && g != [] :: Count(g, f) > 0 || Derivable(g))
        && DerivedPart(groups) == 0)
  }

  /**
   The two levels give the same total exactly when reporting is even, or, for cache misses, when
   the tasks that do not report them all derive theirs and these add up to nothing.
   */
  lemma {:induction false} TotalsAgree(groups: seq<seq<Item>>, f: Field)
    requires Flat(groups) != []
    ensures SecondTotal(Tasks(groups), f) == TotalOf(Flat(groups), f) <==> SameTotal(groups, f)
  {
    if f != CacheMiss {
      ReportedTotalsAgree(groups, f);
    } else if Even(groups, f) {
      EvenMissesAgree(groups);
    } else {
      UnevenMissesAgree(groups);
    }
  }

  lemma {:induction false} EvenMissesAgree(groups: seq<seq<Item>>)
    requires Flat(groups) != [] && Even(groups, CacheMiss)
    ensures SecondTotal(Tasks(groups), CacheMiss) == TotalOf(Flat(groups), CacheMiss)
  {
    hide Count, Sum, SumValues, Known, Tasks, Flat, AllReport, SomeValue, AllValues;
    NonEmptyGroup(groups);
    FlatCounts(groups, CacheMiss);
    ValuesOfTasks(groups, CacheMiss);
    DerivableMeans(groups);
    if forall g | g in groups && g != [] :: Count(g, CacheMiss) > 0 {
      assert Count(Flat(groups), CacheMiss) > 0;
      ReportedValuesAddUp(groups);
    } else if Derivable(Flat(groups)) {
      DerivedValuesAddUp(groups);
    }
  }

  lemma {:induction false} UnevenMissesAgree(groups: seq<seq<Item>>)
    requires Flat(groups) != [] && !Even(groups, CacheMiss)
    ensures SecondTotal(Tasks(groups), CacheMiss) == TotalOf(Flat(groups), CacheMiss) <==> SameTotal(groups, CacheMiss)
  {
    hide Sum, SumValues, Known, Tasks, Flat, AllReport, SomeValue, AllValues, DerivedPart;
    NonEmptyGroup(groups);
    FlatCounts(groups, CacheMiss);
    ValuesOfTasks(groups, CacheMiss);
    if forall g | g in groups && g != [] :: Count(g, CacheMiss) > 0 || Derivable(g) { MixedValuesAddUp(groups); }
  }

  /** When the two levels agree that a field is complete, or that it is not. */
  ghost predicate SameFlag(groups: seq<seq<Item>>, f: Field) {
    f == CacheMiss && (forall g | g in groups && g != [] :: CompleteOf(g, f)) ==>
      || (forall g | g in groups && g != [] :: AllReport(g, f))
      || (forall g | g in groups && g != [] :: Derivable(g))
  }

  /** The flags agree unless all tasks are complete, some by reporting cache misses and some by deriving them. */
  lemma {:induction false} CompletenessAgrees(groups: seq<seq<Item>>, f: Field)
    requires Flat(groups) != []
    ensures (SecondComplete(Tasks(groups), f) <==> CompleteOf(Flat(groups), f)) <==> SameFlag(groups, f)
  {
    hide Count, Known, Tasks, Flat, AllReport, Derivable, SecondComplete;
    NonEmptyGroup(groups);
    TaskComplete(groups, f);
    CompleteMeans(groups, f);
    DerivableMeans(groups);
  }

  lemma {:induction false} TwoTasks(a: Item, b: Item, f: Field)
    ensures Flat([[a], [b]]) == [a, b]
    ensures forall g :: g in [[a], [b]] <==> g == [a] || g == [b]
    ensures Count([a], f) == (if Reports(a, f) then 1 else 0) && Known([a]) == (if a.Some? then 1 else 0)
    ensures Count([b], f) == (if Reports(b, f) then 1 else 0) && Known([b]) == (if b.Some? then 1 else 0)
  {
    var groups := [[a], [b]];
    assert groups[..1] == [[a]] && groups[..1][..0] == [];
    assert [a][..0] == [] && [b][..0] == [];
    assert Flat([[a]]) == [] + [a] == [a] by { assert [[a]][..0] == []; }
    assert [a] + [b] == [a, b];
  }

  /** Such tasks: one reports a field and the other does not. */
  lemma {:induction false} UnevenTotalsDiffer()
    ensures var groups: seq<seq<Item>> := [[Some(map[Output := 1])], [Some(map[])]];
            SecondTotal(Tasks(groups), Output) != TotalOf(Flat(groups), Output)
  {
    hide Tasks, Flat, SecondTotal, TotalOf, Count, Known;
    var a: Item, b: Item := Some(map[Output := 1]), Some(map[]);
    TwoTasks(a, b, Output);
    TotalsAgree([[a], [b]], Output);
  }

  lemma {:induction false} ReportsAndDerives(a: Item, b: Item)
    requires a == Some(map[CacheMiss := 1]) && b == Some(map[Input := 3, Cached := 2])
    ensures AllReport([a], CacheMiss) && !Derivable([a]) && !AllReport([b], CacheMiss) && Derivable([b])
  {
    hide Count, Known;
    TwoTasks(a, b, CacheMiss);
    TwoTasks(a, b, Input);
    TwoTasks(a, b, Cached);
  }

  lemma {:induction false} MixedFlags(groups: seq<seq<Item>>, g: seq<Item>, h: seq<Item>)
    requires g in groups && h in groups && g != [] && h != [] && Flat(groups) != []
    requires forall x | x in groups :: x == g || x == h
    requires AllReport(g, CacheMiss) && !Derivable(g) && !AllReport(h, CacheMiss) && Derivable(h)
    ensures SecondComplete(Tasks(groups), CacheMiss) && !CompleteOf(Flat(groups), CacheMiss)
  {
    hide Tasks, Flat, SecondComplete, AllReport, Derivable;
    TaskComplete(groups, CacheMiss);
    CompleteMeans(groups, CacheMiss);
    DerivableMeans(groups);
  }

  /** Such tasks: one reports its cache misses, the other derives them. */
  lemma {:induction false} MixedFlagsDiffer()
    ensures var groups: seq<seq<Item>> := [[Some(map[CacheMiss := 1])], [Some(map[Input := 3, Cached := 2])]];
            SecondComplete(Tasks(groups), CacheMiss) && !CompleteOf(Flat(groups), CacheMiss)
  {
    hide *;
    var a: Item, b: Item := Some(map[CacheMiss := 1]), Some(map[Input := 3, Cached := 2]);
    ReportsAndDerives(a, b);
    TwoTasks(a, b, CacheMiss);
    MixedFlags([[a], [b]], [a], [b]);
  }

  /** The derived flag agrees unless a task without requests stands among derived ones. */
  lemma {:induction false} DerivedFlagAgrees(groups: seq<seq<Item>>)
    requires Flat(groups) != []
    ensures ((forall u | u in Tasks(groups) :: u.Some? && u.value.derived) <==> Derivable(Flat(groups))) <==>
            !(Derivable(Flat(groups)) && [] in groups)
  {
    DerivableMeans(groups);
    NonEmptyGroup(groups);
    forall g | g in groups ensures Some(TaskUsage(g)) in Tasks(groups) { InTasks(groups, Some(TaskUsage(g))); }
    forall u | u in Tasks(groups) ensures exists g | g in groups :: u == Some(TaskUsage(g)) { InTasks(groups, u); }
    assert forall g | g in groups :: TaskUsage(g).derived == (g != [] && Derivable(g));
  }

  /** Such tasks: one derives its cache misses, and the other made no request. */
  lemma {:induction false} IdleTaskClearsDerived()
    ensures var groups: seq<seq<Item>> := [[Some(map[Input := 3, Cached := 2])], []];
            Derivable(Flat(groups)) && exists u | u in Tasks(groups) :: !(u.Some? && u.value.derived)
  {
    hide Tasks, Flat, Derivable;
    var b: Item := Some(map[Input := 3, Cached := 2]);
    var groups: seq<seq<Item>> := [[b], []];
    assert Flat(groups) == [b] && Derivable([b]) by {
      AddEmptyTask(b);
      ReportsAndDerives(Some(map[CacheMiss := 1]), b);
    }
    assert groups[1] == [] && [] in groups;
    DerivedFlagAgrees(groups);
  }

  lemma {:induction false} AddEmptyTask(b: Item)
    ensures Flat([[b], []]) == [b]
  {
    var groups: seq<seq<Item>> := [[b], []];
    assert groups[..1] == [[b]] && groups[..1][..0] == [];
    assert Flat([[b]]) == [] + [b] == [b];
    assert [b] + [] == [b];
  }

  /** Which batch figures are the figures of all requests together. */
  ghost predicate Agreement(groups: seq<seq<Item>>, r: Summary) {
    var flat := SummaryOf(Flat(groups));
    && r.requests == flat.requests && r.withUsage == flat.withUsage && r.coverage == flat.coverage && r.ratio == flat.ratio
    && (forall f :: f in r.totals && (r.totals[f] == TotalOf(Flat(groups), f) <==> SameTotal(groups, f)))
    && (forall f :: f in r.complete && ((r.complete[f] <==> CompleteOf(Flat(groups), f)) <==> SameFlag(groups, f)))
    && ((r.derived <==> Derivable(Flat(groups))) <==> !(Derivable(Flat(groups)) && [] in groups))
  }

  /**
   Two levels against one, for requests cut into tasks in any way.  Counts and coverage always
   agree, every other figure exactly under its condition; evenly reported, all figures agree.
   */
  method BatchOfTasks(groups: seq<seq<Item>>) returns (r: Summary)
    ensures if Flat(groups) == [] then r == ZERO else Agreement(groups, r)
    ensures Flat(groups) != [] && (forall f :: Even(groups, f)) ==>
              r.(derived := false) == SummaryOf(Flat(groups)).(derived := false)
  {
    hide Agreement, SummaryOf;
    var entries: seq<Option<Summary>> := [];
    for i := 0 to |groups|
      invariant entries == Tasks(groups[..i])
    {
      TaskStep(groups[..i + 1]);
      assert groups[..i + 1][..i] == groups[..i];
      if groups[i] == [] {
        entries := entries + [Some(ZERO)];
      } else {
        var u := AggregateUsage(groups[i]);
        entries := entries + [Some(u)];
      }
    }
    assert groups[..|groups|] == groups;
    r := AggregateEntries(entries, true);
    LevelsAgree(groups, r);
  }

  lemma {:induction false} IdleTasks(groups: seq<seq<Item>>)
    ensures (forall u | u in Tasks(groups) :: Idle(u)) <==> Flat(groups) == []
  {
    FlatCounts(groups, Input);
    forall g | g in groups ensures Some(TaskUsage(g)) in Tasks(groups) { InTasks(groups, Some(TaskUsage(g))); }
    forall u | u in Tasks(groups) ensures exists g | g in groups :: u == Some(TaskUsage(g)) { InTasks(groups, u); }
    assert forall g | g in groups :: Idle(Some(TaskUsage(g))) <==> g == [];
  }

  lemma {:induction false} LevelsAgree(groups: seq<seq<Item>>, r: Summary)
    requires if IsZero(Tasks(groups), true) then r == ZERO else SecondLevel(Tasks(groups), r)
    ensures if Flat(groups) == [] then r == ZERO else Agreement(groups, r)
    ensures Flat(groups) != [] && (forall f :: Even(groups, f)) ==>
              r.(derived := false) == SummaryOf(Flat(groups)).(derived := false)
  {
    hide Tasks, Flat, Agreement, SecondLevel, SummaryOf, Idle, Even;
    IdleTasks(groups);
    if Flat(groups) != [] {
      TwoLevels(groups, r);
      if forall f :: Even(groups, f) { EvenBatch(groups, r); }
    }
  }

  lemma {:induction false} TwoLevels(groups: seq<seq<Item>>, r: Summary)
    requires Flat(groups) != [] && SecondLevel(Tasks(groups), r)
    ensures Agreement(groups, r)
  {
    hide Tasks, Flat, SecondTotal, SecondComplete, TotalOf, CompleteOf, Derivable, Known, Expanded, SameTotal, SameFlag;
    CoverageAgrees(groups);
    DerivedFlagAgrees(groups);
    NonEmptyGroup(groups);
    forall f: Field
      ensures SecondTotal(Tasks(groups), f) == TotalOf(Flat(groups), f) <==> SameTotal(groups, f)
      ensures (SecondComplete(Tasks(groups), f) <==> CompleteOf(Flat(groups), f)) <==> SameFlag(groups, f)
    {
      TotalsAgree(groups, f);
      CompletenessAgrees(groups, f);
    }
  }

  /** Even reporting makes all figures agree. */
  lemma {:induction false} EvenBatch(groups: seq<seq<Item>>, r: Summary)
    requires Agreement(groups, r) && forall f :: Even(groups, f)
    ensures r.(derived := false) == SummaryOf(Flat(groups)).(derived := false)
  {
    hide Flat, TotalOf, Derivable, Known;
    forall f ensures SameFlag(groups, f) { EvenFlag(groups, f); }
    var all := SummaryOf(Flat(groups));
    assert r.totals == all.totals;
    assert r.complete == all.complete;
  }

  lemma {:induction false} EvenFlag(groups: seq<seq<Item>>, f: Field)
    requires Even(groups, f)
    ensures SameFlag(groups, f)
  {
  }
}

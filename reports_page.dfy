/**
 * The reports page: generate a fines or prints report for a zone, then
 * aggregate it into a summary, a pie chart, a bar chart and a weekly line
 * chart.
 */
module ReportsPage {

  import opened Common
  import opened JsNumber
  import opened Lists
  import opened Records

  /** A fine as the reports page stores it, with the zone it was issued in. */
  datatype ZonedFine = ZonedFine(fine: Fine, zone: string)

  datatype ReportType = FinesReport | PrintsReport

  /** `generatedData`: the rows of a fines report or of a prints report. */
  datatype ReportData =
    | FineRows(fines: seq<ZonedFine>)
    | PrintRows(prints: seq<Impression>)
  {
    function Length(): nat
    {
      match this
      case FineRows(fines) => |fines|
      case PrintRows(prints) => |prints|
    }
  }

  const MockFines: seq<ZonedFine> := [
    ZonedFine(Fine("1", "GOM45D", "Feu rouge grillé", "Marie", "Centre-ville", "2025-10-10T10:00:00Z", 80000, "CDF", PENDING), "Goma"),
    ZonedFine(Fine("2", "BB123C", "Assurance expirée", "Richard", "Keshero", "2025-10-07T11:00:00Z", 200000, "CDF", PAID), "Goma"),
    ZonedFine(Fine("3", "KIN89Z", "Stationnement interdit", "Jean", "Lycée Wima", "2025-09-05T12:00:00Z", 50000, "CDF", LATE), "Kinshasa"),
    ZonedFine(Fine("4", "1234AB", "Excès de vitesse", "Salomon", "Aéroport", "2025-09-02T13:00:00Z", 120000, "CDF", PAID), "Goma"),
    ZonedFine(Fine("5", "GOM 456 CD", "Défaut de casque", "Kavira Mukeba", "Rond-point Signers", "2025-08-01T14:00:00Z", 25000, "CDF", PENDING), "Bukavu"),
    ZonedFine(Fine("6", "KIN11A", "Excès de vitesse", "Alice", "Gombe", "2025-10-15T10:00:00Z", 120000, "CDF", PAID), "Kinshasa")
  ]

  const MockImpressions: seq<Impression> := [
    Impression("p1", "Permis", "Agent Tambua", "2025-10-22T09:15:00Z", "P123456789", "Goma"),
    Impression("p2", "Carte Rose", "John Doe", "2025-10-21T10:00:00Z", "BB123C", "Goma"),
    Impression("p3", "Attestation", "Agent Tambua", "2025-09-15T14:30:00Z", "GOM 456 CD", "Bukavu"),
    Impression("p4", "Permis", "John Doe", "2025-09-20T11:00:00Z", "P987654321", "Kinshasa"),
    Impression("p5", "Permis", "Agent Tambua", "2025-09-21T12:00:00Z", "P555555555", "Goma")
  ]

  // ---------------------------------------------------------------- generation

  /** The zone test of `handleGenerateReport`. */
  predicate InZone(itemZone: string, zone: string)
  {
    zone == "all" || itemZone == zone
  }

  /** The fines of the selected zone, in order ("all" keeps every fine). */
  function FinesInZone(fines: seq<ZonedFine>, zone: string): (r: seq<ZonedFine>)
    ensures forall i :: 0 <= i < |fines| ==> (fines[i] in r <==> InZone(fines[i].zone, zone))
    ensures forall i :: 0 <= i < |r| ==> r[i] in fines
  {
    Filter(fines, (f: ZonedFine) => InZone(f.zone, zone))
  }

  /** The prints of the selected zone, in order ("all" keeps every print). */
  function PrintsInZone(prints: seq<Impression>, zone: string): (r: seq<Impression>)
    ensures forall i :: 0 <= i < |prints| ==> (prints[i] in r <==> InZone(prints[i].zone, zone))
    ensures forall i :: 0 <= i < |r| ==> r[i] in prints
  {
    Filter(prints, (p: Impression) => InZone(p.zone, zone))
  }

  /**
   * The rows `handleGenerateReport` stores. The period is an argument
   * because the page computes a start date from it, but no row is tested
   * against that date.
   */
  function Generate(reportType: ReportType, period: string, zone: string): (r: ReportData)
    ensures r.FineRows? <==> reportType == FinesReport
    ensures r.FineRows? ==> r.fines == FinesInZone(MockFines, zone)
    ensures r.PrintRows? ==> r.prints == PrintsInZone(MockImpressions, zone)
  {
    match reportType
    case FinesReport => FineRows(FinesInZone(MockFines, zone))
    case PrintsReport => PrintRows(PrintsInZone(MockImpressions, zone))
  }

  /** With zone "all" every record is kept, in order. */
  lemma AllZonesKeepEverything(fines: seq<ZonedFine>, prints: seq<Impression>)
    ensures FinesInZone(fines, "all") == fines
    ensures PrintsInZone(prints, "all") == prints
  {
    FilterKeepsAll(fines, (f: ZonedFine) => InZone(f.zone, "all"));
    FilterKeepsAll(prints, (p: Impression) => InZone(p.zone, "all"));
  }

  // ---------------------------------------------------------------- weeks

  type DayOfMonth = d: int | 1 <= d <= 31 witness 1
  type Weekday = w: int | 0 <= w <= 6 witness 0

  /**
   * What `new Date(item.date)` gives the week computation: the day of the
   * month and the weekday of that month's first day (0 is Sunday), both in
   * the browser's time zone.
   */
  datatype LocalDay = LocalDay(day: DayOfMonth, firstWeekday: Weekday)

  /** Days of the month's first week that lie before the 1st, counting weeks from Monday. */
  function MondayOffset(firstWeekday: Weekday): (r: int)
    ensures 0 <= r <= 6
    ensures r == (firstWeekday + 6) % 7
  {
    if firstWeekday == 0 then 6 else firstWeekday - 1
  }

  /**
   * `getWeekOfMonth`: `ceil((day + offset) / 7)`. The result `w` is the
   * Monday-started calendar row of the day: `(w - 1) * 7 < day + offset <= w * 7`.
   */
  function WeekOfMonth(d: LocalDay): (w: int)
    ensures 1 <= w <= 6
    ensures (w - 1) * 7 < d.day + MondayOffset(d.firstWeekday) <= w * 7
  {
    (d.day + MondayOffset(d.firstWeekday) + 6) / 7
  }

  /** The week number grows by one exactly when the next day is a Monday. */
  lemma NextDayWeek(day: DayOfMonth, firstWeekday: Weekday)
    requires day < 31
    ensures var next := (firstWeekday + day) % 7;
            WeekOfMonth(LocalDay(day + 1, firstWeekday))
              == WeekOfMonth(LocalDay(day, firstWeekday)) + (if next == 1 then 1 else 0)
  {
  }

  /** The 1st of a month is always in week 1. */
  lemma FirstDayInFirstWeek(firstWeekday: Weekday)
    ensures WeekOfMonth(LocalDay(1, firstWeekday)) == 1
  {
  }

  /** A sixth week exists: the 30th of a month that starts on a Sunday. */
  lemma SixthWeekExists()
    ensures WeekOfMonth(LocalDay(30, 0)) == 6
  {
  }

  // ---------------------------------------------------------------- weekly buckets

  /** What the weekly loop reads of a row: its date and, for fines, its amount. */
  datatype ChartItem = ChartItem(date: string, amount: Option<int>)

  function Items(data: ReportData): (r: seq<ChartItem>)
    ensures |r| == data.Length()
    ensures data.FineRows? ==> forall i :: 0 <= i < |r| ==> r[i] == ChartItem(data.fines[i].fine.date, Some(data.fines[i].fine.amount))
    ensures data.PrintRows? ==> forall i :: 0 <= i < |r| ==> r[i] == ChartItem(data.prints[i].date, None)
  {
    match data
    case FineRows(fines) => seq(|fines|, i requires 0 <= i < |fines| => ChartItem(fines[i].fine.date, Some(fines[i].fine.amount)))
    case PrintRows(prints) => seq(|prints|, i requires 0 <= i < |prints| => ChartItem(prints[i].date, None))
  }

  /** How many items fall in week `w`. */
  function BucketCount(items: seq<ChartItem>, localDay: string -> LocalDay, w: int): nat
  {
    if items == [] then 0
    else
      var last := items[|items| - 1];
      BucketCount(items[..|items| - 1], localDay, w) + (if WeekOfMonth(localDay(last.date)) == w then 1 else 0)
  }

  /** The amounts of the items that fall in week `w`. */
  function BucketAmount(items: seq<ChartItem>, localDay: string -> LocalDay, w: int): int
  {
    if items == [] then 0
    else
      var last := items[|items| - 1];
      BucketAmount(items[..|items| - 1], localDay, w)
        + (if WeekOfMonth(localDay(last.date)) == w && last.amount.Some? then last.amount.value else 0)
  }

  /** The items of the sixth week, which no bucket receives. */
  function SixthWeekCount(items: seq<ChartItem>, localDay: string -> LocalDay): nat
  {
    BucketCount(items, localDay, 6)
  }

  /** Every item lands in exactly one week 1..6, so the five buckets hold all items but those of week 6. */
  lemma {:induction false} BucketsAddUp(items: seq<ChartItem>, localDay: string -> LocalDay)
    ensures BucketCount(items, localDay, 1) + BucketCount(items, localDay, 2) + BucketCount(items, localDay, 3)
          + BucketCount(items, localDay, 4) + BucketCount(items, localDay, 5)
         == |items| - SixthWeekCount(items, localDay)
  {
    if items != [] {
      BucketsAddUp(items[..|items| - 1], localDay);
    }
  }

  /**
   * The `weeklyAgg` loop: five counters "Sem 1".."Sem 5"; each item adds one
   * to the counter of its week, and its amount when it has one. A week-6
   * item matches no counter and is skipped.
   */
  method WeeklyTotals(items: seq<ChartItem>, localDay: string -> LocalDay) returns (counts: seq<nat>, amounts: seq<int>)
    ensures |counts| == 5 && |amounts| == 5
    ensures forall k :: 0 <= k < 5 ==> counts[k] == BucketCount(items, localDay, k + 1)
    ensures forall k :: 0 <= k < 5 ==> amounts[k] == BucketAmount(items, localDay, k + 1)
  {
    counts := [0, 0, 0, 0, 0];
    amounts := [0, 0, 0, 0, 0];
    var i := 0;
    while i < |items|
      invariant 0 <= i <= |items|
      invariant |counts| == 5 && |amounts| == 5
      invariant forall k :: 0 <= k < 5 ==> counts[k] == BucketCount(items[..i], localDay, k + 1)
      invariant forall k :: 0 <= k < 5 ==> amounts[k] == BucketAmount(items[..i], localDay, k + 1)
    {
      var item := items[i];
      assert items[..i + 1][..i] == items[..i];
      var week := WeekOfMonth(localDay(item.date));
      if week <= 5 {
        counts := counts[week - 1 := counts[week - 1] + 1];
        if item.amount.Some? {
          amounts := amounts[week - 1 := amounts[week - 1] + item.amount.value];
        }
      }
      i := i + 1;
    }
    assert items[..i] == items;
  }

  /** The bucket names "Sem 1".."Sem 5". */
  function WeekName(k: nat): string
  {
    "Sem " + Decimal(k)
  }

  /**
   * `lineChartData`: empty unless the period is "monthly" and there is at
   * least one row; otherwise the five weeks in order, valued by amount for
   * fines and by count for prints.
   */
  function LineData(data: ReportData, period: string, localDay: string -> LocalDay): (r: seq<(string, int)>)
    ensures r != [] <==> period == "monthly" && data.Length() > 0
    ensures r != [] ==> |r| == 5 && forall k :: 0 <= k < 5 ==> r[k].0 == WeekName(k + 1)
    ensures r != [] && data.FineRows? ==> forall k :: 0 <= k < 5 ==> r[k].1 == BucketAmount(Items(data), localDay, k + 1)
    ensures r != [] && data.PrintRows? ==> forall k :: 0 <= k < 5 ==> r[k].1 == BucketCount(Items(data), localDay, k + 1)
  {
    if period == "monthly" && data.Length() > 0 then
      var items := Items(data);
      seq(5, k requires 0 <= k < 5 =>
        (WeekName(k + 1), if data.FineRows? then BucketAmount(items, localDay, k + 1) else BucketCount(items, localDay, k + 1)))
    else []
  }

  // ---------------------------------------------------------------- group counts

  /** The distinct keys in order of first appearance: the key order of the `reduce` accumulator. */
  function Distinct(keys: seq<string>): (r: seq<string>)
    ensures forall i, j :: 0 <= i < j < |r| ==> r[i] != r[j]
    ensures forall k :: k in r <==> k in keys
  {
    if keys == [] then []
    else
      var prefix := keys[..|keys| - 1];
      var last := keys[|keys| - 1];
      assert keys == prefix + [last];
      var prev := Distinct(prefix);
      if last in prev then prev else prev + [last]
  }

  /** Later records never reorder the keys already seen: new keys are added at the end. */
  lemma {:induction false} DistinctGrowsAtEnd(p: seq<string>, q: seq<string>)
    ensures Distinct(p) <= Distinct(p + q)
  {
    if q != [] {
      var q' := q[..|q| - 1];
      assert p + q == (p + q') + [q[|q| - 1]];
      assert (p + q)[..|p + q| - 1] == p + q';
      DistinctGrowsAtEnd(p, q');
    } else {
      assert p + q == p;
    }
  }

  /** Each distinct key with its number of occurrences, in first-appearance order. */
  function Tally(keys: seq<string>): (r: seq<(string, nat)>)
    ensures |r| == |Distinct(keys)|
    ensures forall j :: 0 <= j < |r| ==> r[j] == (Distinct(keys)[j], multiset(keys)[Distinct(keys)[j]])
  {
    Pairs(Distinct(keys), multiset(keys))
  }

  function Pairs(ds: seq<string>, m: multiset<string>): (r: seq<(string, nat)>)
    ensures |r| == |ds|
    ensures forall j :: 0 <= j < |r| ==> r[j] == (ds[j], m[ds[j]])
  {
    seq(|ds|, j requires 0 <= j < |ds| => (ds[j], m[ds[j]]))
  }

  function SumCounts(entries: seq<(string, nat)>): nat
  {
    if entries == [] then 0 else SumCounts(entries[..|entries| - 1]) + entries[|entries| - 1].1
  }

  /**
   * The object the `reduce` accumulates, `acc[key] = (acc[key] || 0) + 1`
   * for each key in turn: every key seen, with its number of occurrences.
   */
  function Counts(keys: seq<string>): map<string, nat>
  {
    if keys == [] then map[]
    else
      var c := Counts(keys[..|keys| - 1]);
      var last := keys[|keys| - 1];
      c[last := if last in c then c[last] + 1 else 1]
  }

  /** The counts hold every key seen, each with its number of occurrences. */
  lemma {:induction false} CountsAreOccurrences(keys: seq<string>)
    ensures forall k :: k in Counts(keys) <==> k in keys
    ensures forall k :: k in Counts(keys) ==> Counts(keys)[k] == multiset(keys)[k]
  {
    if keys != [] {
      var prefix := keys[..|keys| - 1];
      assert keys == prefix + [keys[|keys| - 1]];
      CountsAreOccurrences(prefix);
    }
  }

  /**
   * The `reduce` that builds `statusCounts`, `zoneCounts`, `typeCounts` and
   * `agentCounts`: an object from key to count, read back with
   * `Object.entries`.
   */
  method CountBy(keys: seq<string>) returns (entries: seq<(string, nat)>)
    ensures entries == Tally(keys)
  {
    var acc: map<string, nat> := map[];
    var order: seq<string> := [];
    var i := 0;
    while i < |keys|
      invariant 0 <= i <= |keys|
      invariant order == Distinct(keys[..i])
      invariant acc == Counts(keys[..i])
    {
      var key := keys[i];
      ReduceStep(keys, i, acc, order);
      var seen := key in acc;
      acc := acc[key := if seen then acc[key] + 1 else 1];
      if !seen {
        order := order + [key];
      }
      i := i + 1;
    }
    assert keys[..i] == keys;
    EntriesOfCounts(keys, order, acc);
    entries := Entries(order, acc);
  }

  /** `Object.entries` of the counts, listed in the given key order. */
  function Entries(order: seq<string>, acc: map<string, nat>): (r: seq<(string, nat)>)
    requires forall j :: 0 <= j < |order| ==> order[j] in acc
  {
    seq(|order|, j requires 0 <= j < |order| => (order[j], acc[order[j]]))
  }

  /** Listing the finished counts in first-appearance order gives the tally. */
  lemma EntriesOfCounts(keys: seq<string>, order: seq<string>, acc: map<string, nat>)
    requires order == Distinct(keys) && acc == Counts(keys)
    ensures forall j :: 0 <= j < |order| ==> order[j] in acc
    ensures Entries(order, acc) == Tally(keys)
  {
    CountsAreOccurrences(keys);
  }

  /** What one more key does to the counts and to the distinct keys seen so far. */
  lemma ReduceStep(keys: seq<string>, i: nat, acc: map<string, nat>, order: seq<string>)
    requires i < |keys| && acc == Counts(keys[..i]) && order == Distinct(keys[..i])
    ensures keys[i] in acc <==> keys[i] in order
    ensures Counts(keys[..i + 1]) == acc[keys[i] := if keys[i] in acc then acc[keys[i]] + 1 else 1]
    ensures Distinct(keys[..i + 1]) == if keys[i] in acc then order else order + [keys[i]]
  {
    var next := keys[..i + 1];
    assert next[..|next| - 1] == keys[..i] && next[|next| - 1] == keys[i];
    CountsAreOccurrences(keys[..i]);
  }

  lemma {:induction false} PairsOfSnoc(ds: seq<string>, x: string, m: multiset<string>)
    ensures Pairs(ds + [x], m) == Pairs(ds, m) + [(x, m[x])]
  {
  }

  /** One more occurrence of `x` adds one to the total exactly when `x` is among the keys. */
  lemma {:induction false} SumCountsAddOne(ds: seq<string>, m: multiset<string>, x: string)
    requires forall i, j :: 0 <= i < j < |ds| ==> ds[i] != ds[j]
    ensures SumCounts(Pairs(ds, m + multiset{x})) == SumCounts(Pairs(ds, m)) + (if x in ds then 1 else 0)
  {
    if ds != [] {
      var prefix := ds[..|ds| - 1];
      var last := ds[|ds| - 1];
      assert ds == prefix + [last];
      PairsOfSnoc(prefix, last, m);
      PairsOfSnoc(prefix, last, m + multiset{x});
      assert Pairs(ds, m)[..|ds| - 1] == Pairs(prefix, m);
      assert Pairs(ds, m + multiset{x})[..|ds| - 1] == Pairs(prefix, m + multiset{x});
      SumCountsAddOne(prefix, m, x);
      assert x in ds <==> x in prefix || x == last;
      assert last !in prefix;
    }
  }

  /** The counts of a tally add up to the number of keys: every record is counted once. */
  lemma {:induction false} TallyAddsUp(keys: seq<string>)
    ensures SumCounts(Tally(keys)) == |keys|
  {
    if keys != [] {
      var prefix := keys[..|keys| - 1];
      var last := keys[|keys| - 1];
      assert keys == prefix + [last];
      assert multiset(keys) == multiset(prefix) + multiset{last};
      TallyAddsUp(prefix);
      var prev := Distinct(prefix);
      SumCountsAddOne(prev, multiset(prefix), last);
      if last !in prev {
        PairsOfSnoc(prev, last, multiset(keys));
        var p := Pairs(prev + [last], multiset(keys));
        assert p[..|p| - 1] == Pairs(prev, multiset(keys));
        assert multiset(prefix)[last] == 0;
      }
    }
  }

  // ---------------------------------------------------------------- summary

  datatype Summary =
    | FineSummary(totalFines: nat, paidAmount: int, pendingAmount: int)
    | PrintSummary(totalPrints: nat, licences: nat, pinkCards: nat)

  datatype Charts = Charts(pie: seq<(string, nat)>, bar: seq<(string, nat)>, line: seq<(string, int)>)

  datatype Report = Report(summary: Summary, charts: Charts)

  function FineAmount(f: ZonedFine): int { f.fine.amount }
  predicate IsPaid(f: ZonedFine) { f.fine.status == PAID }
  predicate IsUnpaid(f: ZonedFine) { f.fine.status != PAID }

  function Statuses(fines: seq<ZonedFine>): (r: seq<string>)
    ensures |r| == |fines| && forall i :: 0 <= i < |r| ==> r[i] == fines[i].fine.status
  {
    seq(|fines|, i requires 0 <= i < |fines| => fines[i].fine.status)
  }

  function Zones(fines: seq<ZonedFine>): (r: seq<string>)
    ensures |r| == |fines| && forall i :: 0 <= i < |r| ==> r[i] == fines[i].zone
  {
    seq(|fines|, i requires 0 <= i < |fines| => fines[i].zone)
  }

  function DocumentTypes(prints: seq<Impression>): (r: seq<string>)
    ensures |r| == |prints| && forall i :: 0 <= i < |r| ==> r[i] == prints[i].documentType
  {
    seq(|prints|, i requires 0 <= i < |prints| => prints[i].documentType)
  }

  function AgentNames(prints: seq<Impression>): (r: seq<string>)
    ensures |r| == |prints| && forall i :: 0 <= i < |r| ==> r[i] == prints[i].agentName
  {
    seq(|prints|, i requires 0 <= i < |prints| => prints[i].agentName)
  }

  function OfType(prints: seq<Impression>, documentType: string): seq<Impression>
  {
    Filter(prints, (p: Impression) => p.documentType == documentType)
  }

  /** The summary cards of a report. */
  function SummaryOf(data: ReportData): Summary
  {
    match data
    case FineRows(fines) =>
      FineSummary(|fines|, Sum(Filter(fines, IsPaid), FineAmount), Sum(Filter(fines, IsUnpaid), FineAmount))
    case PrintRows(prints) =>
      PrintSummary(|prints|, |OfType(prints, "Permis")|, |OfType(prints, "Carte Rose")|)
  }

  /** What the `useMemo` computes: nothing without data; otherwise the summary and the three charts. */
  function ReportOf(data: ReportData, period: string, localDay: string -> LocalDay): Report
  {
    match data
    case FineRows(fines) =>
      Report(SummaryOf(data), Charts(Tally(Statuses(fines)), Tally(Zones(fines)), LineData(data, period, localDay)))
    case PrintRows(prints) =>
      Report(SummaryOf(data), Charts(Tally(DocumentTypes(prints)), Tally(AgentNames(prints)), LineData(data, period, localDay)))
  }

  /** The paid amount and the pending amount add up to the amount of all fines in the report. */
  lemma PaidPlusPending(fines: seq<ZonedFine>)
    ensures var s := SummaryOf(FineRows(fines));
            s.paidAmount + s.pendingAmount == Sum(fines, FineAmount)
  {
    SumSplits(fines, FineAmount, IsPaid, IsUnpaid);
  }

  /** The pie and bar charts count every row once: their values add up to the report's total. */
  lemma ChartsCountEveryRow(data: ReportData, period: string, localDay: string -> LocalDay)
    ensures var charts := ReportOf(data, period, localDay).charts;
            SumCounts(charts.pie) == data.Length() && SumCounts(charts.bar) == data.Length()
  {
    match data
    case FineRows(fines) =>
      TallyAddsUp(Statuses(fines));
      TallyAddsUp(Zones(fines));
    case PrintRows(prints) =>
      TallyAddsUp(DocumentTypes(prints));
      TallyAddsUp(AgentNames(prints));
  }

  /** The number of filtered records equals the number of occurrences of the tested value. */
  lemma {:induction false} FilterCountsOccurrences(prints: seq<Impression>, documentType: string)
    ensures |OfType(prints, documentType)| == multiset(DocumentTypes(prints))[documentType]
  {
    if prints != [] {
      FilterCountsOccurrences(prints[1..], documentType);
      assert DocumentTypes(prints) == [prints[0].documentType] + DocumentTypes(prints[1..]);
    }
  }

  /**
   * The "Permis" and "Cartes Roses" cards agree with the pie chart's
   * slices for those types, and together they never exceed the total.
   */
  lemma PrintCardsMatchPie(prints: seq<Impression>)
    ensures var s := SummaryOf(PrintRows(prints));
            && s.licences == multiset(DocumentTypes(prints))["Permis"]
            && s.pinkCards == multiset(DocumentTypes(prints))["Carte Rose"]
            && s.licences + s.pinkCards <= s.totalPrints
  {
    FilterCountsOccurrences(prints, "Permis");
    FilterCountsOccurrences(prints, "Carte Rose");
    TwoTypesBound(prints, "Permis", "Carte Rose");
  }

  /** Rows of two different types are different rows. */
  lemma {:induction false} TwoTypesBound(prints: seq<Impression>, a: string, b: string)
    requires a != b
    ensures |OfType(prints, a)| + |OfType(prints, b)| <= |prints|
  {
    if prints != [] {
      TwoTypesBound(prints[1..], a, b);
    }
  }

  /**
   * The `useMemo` aggregation: `None` without generated data; otherwise the
   * report, computed with the weekly and group-count loops.
   */
  method Aggregate(data: Option<ReportData>, period: string, localDay: string -> LocalDay) returns (r: Option<Report>)
    ensures r.None? <==> data.None?
    ensures data.Some? ==> r == Some(ReportOf(data.value, period, localDay))
  {
    if data.None? {
      return None;
    }
    var rows := data.value;
    var line := WeeklyLine(rows, period, localDay);
    var pie, bar;
    match rows {
      case FineRows(fines) =>
        pie := CountBy(Statuses(fines));
        bar := CountBy(Zones(fines));
      case PrintRows(prints) =>
        pie := CountBy(DocumentTypes(prints));
        bar := CountBy(AgentNames(prints));
    }
    r := Some(Report(SummaryOf(rows), Charts(pie, bar, line)));
  }

  /** `lineChartData`, computed with the weekly loop. */
  method WeeklyLine(rows: ReportData, period: string, localDay: string -> LocalDay) returns (line: seq<(string, int)>)
    ensures line == LineData(rows, period, localDay)
  {
    line := [];
    if period == "monthly" && rows.Length() > 0 {
      var counts, amounts := WeeklyTotals(Items(rows), localDay);
      line := seq(5, k requires 0 <= k < 5 => (WeekName(k + 1), if rows.FineRows? then amounts[k] else counts[k] as int));
    }
  }

  /** The selectors as `handleGenerateReport`'s timer captured them at the click. */
  datatype Selection = Selection(reportType: ReportType, period: string, zone: string)

  class ReportsPage {
    var reportType: ReportType
    var period: string
    var zone: string
    var generatedData: Option<ReportData>
    var isLoading: bool
    /** The selection captured by the running timer, if one runs. */
    var pending: Option<Selection>

    /** The page is loading exactly while a timer runs. */
    predicate Valid()
      reads this
    {
      isLoading <==> pending.Some?
    }

    constructor ()
      ensures Valid()
      ensures reportType == FinesReport && period == "monthly" && zone == "all"
      ensures generatedData == None && !isLoading && pending == None
    {
      reportType := FinesReport;
      period := "monthly";
      zone := "all";
      generatedData := None;
      isLoading := false;
      pending := None;
    }

    /** The report-type select; it stays enabled while a report is generated. */
    method SetReportType(value: ReportType)
      modifies this
      ensures reportType == value && period == old(period) && zone == old(zone)
      ensures generatedData == old(generatedData) && isLoading == old(isLoading) && pending == old(pending)
    {
      reportType := value;
    }

    /** The period select; it stays enabled while a report is generated. */
    method SetPeriod(value: string)
      modifies this
      ensures period == value && reportType == old(reportType) && zone == old(zone)
      ensures generatedData == old(generatedData) && isLoading == old(isLoading) && pending == old(pending)
    {
      period := value;
    }

    /** The zone select; it stays enabled while a report is generated. */
    method SetZone(value: string)
      modifies this
      ensures zone == value && reportType == old(reportType) && period == old(period)
      ensures generatedData == old(generatedData) && isLoading == old(isLoading) && pending == old(pending)
    {
      zone := value;
    }

    /**
     * The "generate" button, enabled only while no report is loading: loading
     * starts, the previous report disappears and the timer captures the
     * current selection.
     */
    method GenerateStart()
      requires Valid() && !isLoading
      modifies this
      ensures Valid() && isLoading && generatedData == None
      ensures pending == Some(Selection(reportType, period, zone))
      ensures reportType == old(reportType) && period == old(period) && zone == old(zone)
    {
      isLoading := true;
      generatedData := None;
      pending := Some(Selection(reportType, period, zone));
    }

    /**
     * The timer fires: the rows of the captured type and zone are stored,
     * whatever the selectors show now, and loading ends.
     */
    method GenerateComplete()
      requires Valid() && pending.Some?
      modifies this
      ensures Valid() && !isLoading && pending == None
      ensures generatedData == Some(Generate(old(pending).value.reportType, old(pending).value.period, old(pending).value.zone))
      ensures reportType == old(reportType) && period == old(period) && zone == old(zone)
    {
      var captured := pending.value;
      Finish(Generate(captured.reportType, captured.period, captured.zone));
    }

    /** Stores a generated report and ends loading. */
    method Finish(rows: ReportData)
      modifies this
      ensures Valid() && !isLoading && pending == None && generatedData == Some(rows)
      ensures reportType == old(reportType) && period == old(period) && zone == old(zone)
    {
      generatedData := Some(rows);
      isLoading := false;
      pending := None;
    }
  }
}

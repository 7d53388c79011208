/**
 * Day summaries (the `summaries` blueprint): a requested range of days, and
 * for each day the grand total of tracked seconds plus per-project and
 * per-language breakdowns with percentages.
 *
 * Days are integer day numbers. The durations of a day, which the service
 * fetches after converting the day to UTC, are an input.
 */
module Summaries {
  import opened Common
  import opened Counters
  import opened Durations

  /** The longest `end - start` a summary request may span, exclusive. */
  const MaxDelta := 32

  /** `daterange(start_date, delta)`: the days `start`, `start + 1`, ..., `start + delta`. */
  function DateRange(start: int, delta: int): (r: seq<int>)
    ensures |r| == if delta < 0 then 0 else delta + 1
    ensures forall i :: 0 <= i < |r| ==> r[i] == start + i
    decreases delta
  {
    if delta < 0 then [] else DateRange(start, delta - 1) + [start + delta]
  }

  /**
   * The quotient `seconds / total_seconds` of an entry. The service reports
   * `round(quotient, 2) * 100` as a float; that rounding is not modelled.
   */
  datatype Percent = Fraction(seconds: int, total: int)

  /** One `{name, percent, total_seconds}` entry of a breakdown. */
  datatype Entry = Entry(name: Option<string>, percent: Percent, totalSeconds: int)

  datatype SummaryKey = GrandTotal | Projects | Languages | Range

  datatype SummaryValue =
    | Total(totalSeconds: int)    // {'total_seconds': ...}
    | Entries(entries: seq<Entry>)
    | DayOf(date: int)            // the 'range' object; its ISO strings are not modelled

  /** The summary dict of one day, filled in place. */
  class Summary {
    var fields: map<SummaryKey, SummaryValue>

    constructor ()
      ensures fields == map[]
    {
      fields := map[];
    }
  }

  /** The entry of one ranked counter item: its name, its share of `total` and its seconds. */
  function EntryOf(item: (Option<string>, int), total: int): Entry {
    Entry(item.0, Fraction(item.1, total), item.1)
  }

  /** The entries made from ranked counter items, none of which divides by zero. */
  function Listing(ranked: Counter<Option<string>>, total: int): (es: seq<Entry>)
    requires total != 0 || ranked == []
  {
    if ranked == [] then []
    else Listing(ranked[..|ranked| - 1], total) + [EntryOf(ranked[|ranked| - 1], total)]
  }

  /** Entry `i` of a listing is made from ranked item `i`. */
  lemma {:induction false} ListingItems(ranked: Counter<Option<string>>, total: int)
    requires total != 0 || ranked == []
    ensures |Listing(ranked, total)| == |ranked|
    ensures forall i :: 0 <= i < |ranked| ==> Listing(ranked, total)[i] == EntryOf(ranked[i], total)
  {
    if ranked != [] {
      ListingItems(ranked[..|ranked| - 1], total);
    }
  }

  /** Whether a day's percents can be computed: no entries, or a non-zero total. */
  predicate DayComputable(ds: seq<Duration>) {
    ds == [] || TotalSeconds(ds) != 0
  }

  /** The breakdown of a day's durations by `key` (project or language). */
  function Breakdown(ds: seq<Duration>, key: Duration -> Option<string>): seq<Entry>
    requires DayComputable(ds)
  {
    Listing(Ranked(ds, key), TotalSeconds(ds))
  }

  /** The summary dict of a day whose percents can be computed. */
  function DayFields(date: int, ds: seq<Duration>): map<SummaryKey, SummaryValue>
    requires DayComputable(ds)
  {
    map[GrandTotal := Total(TotalSeconds(ds)),
        Projects := Entries(Breakdown(ds, ProjectOf)),
        Languages := Entries(Breakdown(ds, LanguageOf)),
        Range := DayOf(date)]
  }

  /**
   * `_process_durations`: sets `counter[counter_key]` to `value_func` of each
   * duration in turn, so only the last duration's value remains.
   */
  method ProcessDurations<K(==)>(durations: seq<Duration>, counterKey: K, valueFunc: Duration -> int)
    returns (counter: Counter<K>)
    ensures durations == [] ==> counter == []
    ensures durations != [] ==> counter == [(counterKey, valueFunc(durations[|durations| - 1]))]
  {
    counter := [];
    for i := 0 to |durations|
      invariant i == 0 ==> counter == []
      invariant i > 0 ==> counter == [(counterKey, valueFunc(durations[i - 1]))]
    {
      counter := Put(counter, counterKey, valueFunc(durations[i]));
    }
  }

  /**
   * `_do_summary_list`: sets `summary[sum_key]` to a fresh list and appends
   * one entry per `counter.most_common()` item. Computing a percent divides
   * by `total_seconds`, so with a zero total the first entry raises
   * ZeroDivisionError (`ok` is false) and the list stays empty.
   */
  method DoSummaryList(summary: Summary, sumKey: SummaryKey, counter: Counter<Option<string>>, total: int)
    returns (ok: bool)
    modifies summary
    ensures ok <==> (counter == [] || total != 0)
    ensures ok ==> summary.fields == old(summary.fields)[sumKey := Entries(Listing(MostCommon(counter), total))]
    ensures !ok ==> summary.fields == old(summary.fields)[sumKey := Entries([])]
  {
    summary.fields := summary.fields[sumKey := Entries([])];
    var ranked := MostCommon(counter);
    assert Listing(ranked[..0], total) == [];
    for i := 0 to |ranked|
      invariant total != 0 || i == 0
      invariant summary.fields == old(summary.fields)[sumKey := Entries(Listing(ranked[..i], total))]
    {
      if total == 0 {
        return false;
      }
      var (name, seconds) := ranked[i];
      var entry := Entry(name, Fraction(seconds, total), seconds);
      assert ranked[..i + 1][..i] == ranked[..i];
      summary.fields := summary.fields[sumKey := Entries(summary.fields[sumKey].entries + [entry])];
      assert Listing(ranked[..i + 1], total) == Listing(ranked[..i], total) + [entry];
    }
    assert ranked[..|ranked|] == ranked;
    ok := true;
  }

  /**
   * `_day_summary_projects`: one pass over the day's durations adds each
   * duration's seconds to its project's and its language's counter and to the
   * grand total, which is stored; then the project and language lists are
   * written. A null project or language is a key of its own.
   */
  method DaySummaryProjects(summary: Summary, durations: seq<Duration>) returns (ok: bool)
    modifies summary
    ensures ok <==> DayComputable(durations)
    ensures ok ==> (summary.fields ==
      old(summary.fields)[GrandTotal := Total(TotalSeconds(durations))]
                         [Projects := Entries(Breakdown(durations, ProjectOf))]
                         [Languages := Entries(Breakdown(durations, LanguageOf))])
    ensures !ok ==> (summary.fields ==
      old(summary.fields)[GrandTotal := Total(TotalSeconds(durations))][Projects := Entries([])])
  {
    var projects: Counter<Option<string>> := [];
    var languages: Counter<Option<string>> := [];
    var total := 0;
    for i := 0 to |durations|
      invariant projects == Tally(durations[..i], ProjectOf)
      invariant languages == Tally(durations[..i], LanguageOf)
      invariant total == TotalSeconds(durations[..i])
    {
      var d := durations[i];
      var secs := d.end - d.start;
      assert durations[..i + 1][..i] == durations[..i];
      projects := Add(projects, d.project, secs);
      languages := Add(languages, d.language, secs);
      total := total + secs;
    }
    assert durations[..|durations|] == durations;
    TallyEmpty(durations, ProjectOf);
    summary.fields := summary.fields[GrandTotal := Total(total)];
    ok := DoSummaryList(summary, Projects, projects, total);
    if !ok {
      return;
    }
    ok := DoSummaryList(summary, Languages, languages, total);
  }

  /**
   * `_summary_for_day`, given the durations the service fetches for the day:
   * a new summary with the day's totals and its date.
   */
  method SummaryForDay(date: int, durations: seq<Duration>) returns (r: Result<Summary>)
    ensures r.Success? <==> DayComputable(durations)
    ensures r.Failure? ==> r.error == ZeroDivision
    ensures r.Success? ==> fresh(r.value) && r.value.fields == DayFields(date, durations)
  {
    var summary := new Summary();
    var ok := DaySummaryProjects(summary, durations);
    if !ok {
      return Failure(ZeroDivision);
    }
    summary.fields := summary.fields[Range := DayOf(date)];
    r := Success(summary);
  }

  /**
   * `make_summary`: one summary per day of `daterange(start, delta)`, in that
   * order; the first day whose percents divide by zero aborts the request.
   */
  method MakeSummary(start: int, delta: int, durationsOn: int -> seq<Duration>)
    returns (r: Result<seq<Summary>>)
    ensures var dates := DateRange(start, delta);
      r.Success? <==> forall i :: 0 <= i < |dates| ==> DayComputable(durationsOn(dates[i]))
    ensures r.Failure? ==> r.error == ZeroDivision
    ensures var dates := DateRange(start, delta);
      r.Success? ==> |r.value| == |dates| && forall i {:trigger r.value[i]} :: 0 <= i < |r.value| ==>
        r.value[i].fields == DayFields(dates[i], durationsOn(dates[i]))
  {
    var dates := DateRange(start, delta);
    var data: seq<Summary> := [];
    for i := 0 to |dates|
      invariant |data| == i
      invariant forall j :: 0 <= j < i ==> DayComputable(durationsOn(dates[j]))
      invariant forall j {:trigger data[j]} :: 0 <= j < i ==>
        data[j].fields == DayFields(dates[j], durationsOn(dates[j]))
    {
      var day := SummaryForDay(dates[i], durationsOn(dates[i]));
      if day.Failure? {
        assert dates == DateRange(start, delta) && !DayComputable(durationsOn(dates[i]));
        return Failure(day.error);
      }
      AppendDay(data, day.value, dates, durationsOn);
      data := data + [day.value];
    }
    r := Success(data);
  }

  /** Appending the summary of the next day keeps `data[j]` the summary of `dates[j]`. */
  lemma AppendDay(data: seq<Summary>, s: Summary, dates: seq<int>, durationsOn: int -> seq<Duration>)
    requires |data| < |dates|
    requires forall j :: 0 <= j <= |data| ==> DayComputable(durationsOn(dates[j]))
    requires forall j {:trigger data[j]} :: 0 <= j < |data| ==>
      data[j].fields == DayFields(dates[j], durationsOn(dates[j]))
    requires s.fields == DayFields(dates[|data|], durationsOn(dates[|data|]))
    ensures forall j {:trigger (data + [s])[j]} :: 0 <= j <= |data| ==>
      (data + [s])[j].fields == DayFields(dates[j], durationsOn(dates[j]))
  {
    forall j | 0 <= j <= |data| ensures (data + [s])[j].fields == DayFields(dates[j], durationsOn(dates[j])) {
      if j < |data| {
        assert (data + [s])[j] == data[j];
      }
    }
  }

  /**
   * `user_summary`: rejects a start after the end and a span of 32 days or
   * more between them, then summarises every day from start to end.
   */
  method UserSummary(startDate: int, endDate: int, durationsOn: int -> seq<Duration>)
    returns (r: Result<seq<Summary>>)
    ensures startDate > endDate ==> r == Failure(BadRequest("Invalid date range."))
    ensures startDate <= endDate && endDate - startDate >= MaxDelta ==>
      r == Failure(BadRequest("Too many requested days."))
    ensures 0 <= endDate - startDate < MaxDelta ==>
      (r.Success? <==> forall day :: startDate <= day <= endDate ==> DayComputable(durationsOn(day)))
    ensures 0 <= endDate - startDate < MaxDelta && r.Failure? ==> r.error == ZeroDivision
    ensures r.Success? ==> |r.value| == endDate - startDate + 1 <= MaxDelta
    ensures var dates := DateRange(startDate, endDate - startDate);
      r.Success? ==> forall i {:trigger r.value[i]} :: 0 <= i < |r.value| ==>
        dates[i] == startDate + i &&
        r.value[i].fields == DayFields(dates[i], durationsOn(dates[i]))
  {
    if startDate > endDate {
      return Failure(BadRequest("Invalid date range."));
    }
    var delta := endDate - startDate;
    if delta >= MaxDelta {
      return Failure(BadRequest("Too many requested days."));
    }
    r := MakeSummary(startDate, delta, durationsOn);
    var dates := DateRange(startDate, delta);
    if r.Success? {
      forall day | startDate <= day <= endDate ensures DayComputable(durationsOn(day)) {
        assert dates[day - startDate] == day;
      }
    } else {
      var i :| 0 <= i < |dates| && !DayComputable(durationsOn(dates[i]));
      assert startDate <= dates[i] <= endDate;
    }
  }

  /** The days of `daterange(start, delta)` are exactly those from `start` to `start + delta`. */
  lemma DateRangeMembers(start: int, delta: int)
    ensures forall day :: day in DateRange(start, delta) <==> start <= day <= start + delta
  {
    var dates := DateRange(start, delta);
    forall day | start <= day <= start + delta ensures day in dates {
      assert dates[day - start] == day;
    }
  }

  // ---------------------------------------------------------------------
  // What a day's breakdowns promise

  /** The seconds of a list of entries. */
  function EntrySeconds(es: seq<Entry>): int {
    if es == [] then 0 else EntrySeconds(es[..|es| - 1]) + es[|es| - 1].totalSeconds
  }

  lemma {:induction false} ListingSeconds(ranked: Counter<Option<string>>, total: int)
    requires total != 0 || ranked == []
    ensures EntrySeconds(Listing(ranked, total)) == Sum(ranked)
  {
    if ranked != [] {
      var p, x := ranked[..|ranked| - 1], ranked[|ranked| - 1];
      var es := Listing(p, total);
      calc {
        EntrySeconds(Listing(ranked, total));
        EntrySeconds(es + [EntryOf(x, total)]);
        { assert (es + [EntryOf(x, total)])[..|es|] == es; }
        EntrySeconds(es) + x.1;
        { ListingSeconds(p, total); }
        Sum(p) + x.1;
        { SumAppend(p, [x]); }
        Sum(p + [x]);
        { assert p + [x] == ranked; }
        Sum(ranked);
      }
    }
  }

  /**
   * A breakdown has one entry per distinct key of the day's durations (a null
   * project or language is its own entry), each holding the seconds of that
   * key's durations and its share of the grand total, and the entries add up
   * to the grand total.
   */
  lemma BreakdownContents(ds: seq<Duration>, key: Duration -> Option<string>)
    requires DayComputable(ds)
    ensures var es := Breakdown(ds, key);
      && |es| == |KeysOf(ds, key)|
      && EntrySeconds(es) == TotalSeconds(ds)
      && (forall i :: 0 <= i < |es| ==>
            es[i].totalSeconds == SecondsWhere(ds, key, es[i].name) &&
            es[i].percent == Fraction(es[i].totalSeconds, TotalSeconds(ds)))
      && (forall i, j :: 0 <= i < j < |es| ==> es[i].name != es[j].name)
  {
    RankingContents(ds, key);
    TallyEmpty(ds, key);
    ListingItems(Ranked(ds, key), TotalSeconds(ds));
    ListingSeconds(Ranked(ds, key), TotalSeconds(ds));
  }

  /** A key occurs among the day's durations exactly when its breakdown lists it. */
  lemma BreakdownNames(ds: seq<Duration>, key: Duration -> Option<string>, name: Option<string>)
    requires DayComputable(ds)
    ensures name in KeysOf(ds, key) <==>
      exists i :: 0 <= i < |Breakdown(ds, key)| && Breakdown(ds, key)[i].name == name
  {
    RankingMembers(ds, key, name);
    TallyEmpty(ds, key);
    ListingItems(Ranked(ds, key), TotalSeconds(ds));
    var es := Breakdown(ds, key);
    if name in KeysOf(ds, key) {
      var i :| 0 <= i < |Ranked(ds, key)| && Ranked(ds, key)[i].0 == name;
      assert es[i].name == name;
    }
  }

  /**
   * A breakdown is sorted by descending seconds, entries with equal seconds
   * in the order their keys first occur among the day's durations.
   */
  lemma BreakdownOrder(ds: seq<Duration>, key: Duration -> Option<string>)
    requires DayComputable(ds)
    ensures var es := Breakdown(ds, key);
      forall i, j :: 0 <= i < j < |es| ==>
        es[i].totalSeconds > es[j].totalSeconds ||
        (es[i].totalSeconds == es[j].totalSeconds &&
         FirstIndex(ds, key, es[i].name) < FirstIndex(ds, key, es[j].name))
  {
    RankingOrder(ds, key);
    TallyEmpty(ds, key);
    ListingItems(Ranked(ds, key), TotalSeconds(ds));
  }

  /** A day without durations has a zero grand total and two empty lists. */
  lemma NoDurations(date: int)
    ensures DayComputable([])
    ensures DayFields(date, []) ==
      map[GrandTotal := Total(0), Projects := Entries([]), Languages := Entries([]), Range := DayOf(date)]
  {
  }

  /**
   * A day whose durations all have zero length has a zero grand total, so its
   * first percent divides by zero and the summary request fails.
   */
  lemma ZeroLengthDay(ds: seq<Duration>)
    requires ds != []
    requires forall d :: d in ds ==> d.start == d.end
    ensures !DayComputable(ds)
  {
    ZeroLengthTotal(ds);
  }
}

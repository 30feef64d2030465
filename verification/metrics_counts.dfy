/** What every number of an operational metrics report counts, told by the rows alone: requests
    and unpaid requests as numbers of rows, money and measurements as sums of their own field. */
module MetricsCounts {
  import opened Wrappers
  import opened Texts
  import opened MetricsModel

  // ---------- Counting and adding up ----------

  ghost function Where(rows: seq<Row>, p: Row -> bool): set<nat> {
    set i: nat | i < |rows| && p(rows[i])
  }

  /** How many rows satisfy `p`. */
  ghost function Count(rows: seq<Row>, p: Row -> bool): nat {
    |Where(rows, p)|
  }

  /** The sum of a field over the rows that satisfy `p` and have it. */
  function Total(rows: seq<Row>, p: Row -> bool, field: Row -> Option<nat>): nat {
    if rows == [] then 0
    else
      var last := rows[|rows| - 1];
      Total(rows[..|rows| - 1], p, field) + if p(last) && field(last).Some? then field(last).value else 0
  }

  function Duration(rows: seq<Row>, field: Row -> Option<real>): real {
    if rows == [] then 0.0
    else
      var last := rows[|rows| - 1];
      Duration(rows[..|rows| - 1], field) + if field(last).Some? then field(last).value else 0.0
  }

  /** None when no row has the field, and the sum otherwise. */
  ghost function Known(rows: seq<Row>, p: Row -> bool, field: Row -> Option<nat>): Option<nat> {
    if Count(rows, (r: Row) => p(r) && field(r).Some?) == 0 then None else Some(Total(rows, p, field))
  }

  ghost function KnownDuration(rows: seq<Row>, field: Row -> Option<real>): Option<real> {
    if Count(rows, (r: Row) => field(r).Some?) == 0 then None else Some(Duration(rows, field))
  }

  lemma CountMore(rows: seq<Row>, x: Row, p: Row -> bool)
    ensures Count(rows + [x], p) == Count(rows, p) + if p(x) then 1 else 0
  {
    assert Where(rows + [x], p) == Where(rows, p) + if p(x) then {|rows|} else {};
  }

  lemma TotalMore(rows: seq<Row>, x: Row, p: Row -> bool, field: Row -> Option<nat>)
    ensures Total(rows + [x], p, field) == Total(rows, p, field) + if p(x) && field(x).Some? then field(x).value else 0
  {
    assert (rows + [x])[..|rows|] == rows;
  }

  lemma DurationMore(rows: seq<Row>, x: Row, field: Row -> Option<real>)
    ensures Duration(rows + [x], field) == Duration(rows, field) + if field(x).Some? then field(x).value else 0.0
  {
    assert (rows + [x])[..|rows|] == rows;
  }

  lemma {:induction false} NothingKnown(rows: seq<Row>, p: Row -> bool, field: Row -> Option<nat>)
    requires Count(rows, (r: Row) => p(r) && field(r).Some?) == 0
    ensures Total(rows, p, field) == 0
    decreases |rows|
  {
    if rows != [] {
      var rest, last := rows[..|rows| - 1], rows[|rows| - 1];
      assert rows == rest + [last];
      CountMore(rest, last, (r: Row) => p(r) && field(r).Some?);
      NothingKnown(rest, p, field);
    }
  }

  lemma {:induction false} NoDuration(rows: seq<Row>, field: Row -> Option<real>)
    requires Count(rows, (r: Row) => field(r).Some?) == 0
    ensures Duration(rows, field) == 0.0
    decreases |rows|
  {
    if rows != [] {
      var rest, last := rows[..|rows| - 1], rows[|rows| - 1];
      assert rows == rest + [last];
      CountMore(rest, last, (r: Row) => field(r).Some?);
      NoDuration(rest, field);
    }
  }

  lemma KnownMore(rows: seq<Row>, x: Row, p: Row -> bool, field: Row -> Option<nat>)
    ensures Known(rows + [x], p, field) == PlusNat(Known(rows, p, field), if p(x) then field(x) else None)
  {
    CountMore(rows, x, (r: Row) => p(r) && field(r).Some?);
    TotalMore(rows, x, p, field);
    if Known(rows, p, field).None? {
      NothingKnown(rows, p, field);
    }
  }

  lemma KnownDurationMore(rows: seq<Row>, x: Row, field: Row -> Option<real>)
    ensures KnownDuration(rows + [x], field) == PlusReal(KnownDuration(rows, field), field(x))
  {
    CountMore(rows, x, (r: Row) => field(r).Some?);
    DurationMore(rows, x, field);
    if KnownDuration(rows, field).None? {
      NoDuration(rows, field);
    }
  }

  // ---------- Buckets ----------

  /** What a bucket over the rows that satisfy `p` says. */
  ghost predicate Counts(b: Bucket, rows: seq<Row>, p: Row -> bool) {
    && b.requests == Count(rows, p)
    && b.unknown == Count(rows, (r: Row) => p(r) && r.payload.billing == Unknown)
    && b.unauthenticated == Count(rows, (r: Row) => p(r) && r.payload.billing == Unauthenticated)
    && b.money == Known(rows, p, (r: Row) => r.payload.money)
  }

  lemma CountsMore(b: Bucket, rows: seq<Row>, x: Row, p: Row -> bool)
    requires Counts(b, rows, p)
    ensures Counts(if p(x) then PlusBucket(b, BucketOf(x)) else b, rows + [x], p)
  {
    hide Count, Known;
    CountMore(rows, x, p);
    CountMore(rows, x, (r: Row) => p(r) && r.payload.billing == Unknown);
    CountMore(rows, x, (r: Row) => p(r) && r.payload.billing == Unauthenticated);
    KnownMore(rows, x, p, (r: Row) => r.payload.money);
  }

  lemma NothingCounts(rows: seq<Row>, p: Row -> bool)
    requires rows == []
    ensures Counts(ZERO_BUCKET, rows, p)
  {
    assert forall q: Row -> bool :: Where(rows, q) == {};
  }

  lemma {:induction false} GroupCounts(rows: seq<Row>, dim: Dimension, key: Option<string>, p: Row -> bool)
    requires forall r :: p(r) <==> KeyOf(r, dim) == key
    ensures Counts(Tally(Select(rows, dim, key)), rows, p)
    decreases |rows|
  {
    hide Tally, Select, Counts, PlusBucket, BucketOf, KeyOf;
    if rows == [] {
      EmptyTally(rows, dim, key);
      NothingCounts(rows, p);
    } else {
      var rest, x := rows[..|rows| - 1], rows[|rows| - 1];
      assert rows == rest + [x];
      GroupCounts(rest, dim, key, p);
      GroupMore(rest, x, dim, key);
      CountsMore(Tally(Select(rest, dim, key)), rest, x, p);
    }
  }

  lemma {:induction false} TallyCounts(rows: seq<Row>)
    ensures Counts(Tally(rows), rows, (r: Row) => true)
    decreases |rows|
  {
    hide Tally, Counts, PlusBucket, BucketOf;
    if rows == [] {
      EmptyTally(rows, ByEpisode, None);
      NothingCounts(rows, (r: Row) => true);
    } else {
      var rest, x := rows[..|rows| - 1], rows[|rows| - 1];
      assert rows == rest + [x];
      TallyCounts(rest);
      TallyMore(rest, x);
      CountsMore(Tally(rest), rest, x, (r: Row) => true);
    }
  }

  // ---------- The report ----------

  /** The measurements are the sums of their own fields, and the models those that are named. */
  ghost predicate Measures(s: Sums, rows: seq<Row>) {
    && s.input == Total(rows, (r: Row) => true, (r: Row) => r.payload.input) && s.cached == Total(rows, (r: Row) => true, (r: Row) => r.payload.cached)
    && s.output == Total(rows, (r: Row) => true, (r: Row) => r.payload.output)
    && s.reasoning == Total(rows, (r: Row) => true, (r: Row) => r.payload.reasoning)
    && s.quota == Total(rows, (r: Row) => true, (r: Row) => r.payload.quota)
    && s.exposure == Known(rows, (r: Row) => true, (r: Row) => r.payload.exposure)
    && s.latency == KnownDuration(rows, (r: Row) => r.payload.latency)
    && s.queueWait == KnownDuration(rows, (r: Row) => r.payload.queueWait)
    && s.unknownTimestamps == Count(rows, (r: Row) => r.when == None)
    && s.models == Models(rows)
  }

  function Models(rows: seq<Row>): set<string> {
    set i | 0 <= i < |rows| && rows[i].payload.model.Some? :: rows[i].payload.model.value
  }

  lemma {:induction false} SumMeasures(rows: seq<Row>)
    ensures Measures(Sum(rows), rows)
    decreases |rows|
  {
    if rows == [] {
      NothingMeasured(rows);
    } else {
      var rest, x := rows[..|rows| - 1], rows[|rows| - 1];
      assert rows == rest + [x];
      SumMeasures(rest);
      SumMore(rest, x);
      MeasuresMore(Sum(rest), rest, x);
    }
  }

  lemma NothingMeasured(rows: seq<Row>)
    requires rows == []
    ensures Measures(Sum(rows), rows)
  {
    assert forall q: Row -> bool :: Where(rows, q) == {};
  }

  lemma MeasuresMore(s: Sums, rows: seq<Row>, x: Row)
    requires Measures(s, rows)
    ensures Measures(Plus(s, SumsOf(x)), rows + [x])
  {
    hide Total, Count, Known, KnownDuration, PlusBucket, BucketOf;
    TotalMore(rows, x, (r: Row) => true, (r: Row) => r.payload.input);
    TotalMore(rows, x, (r: Row) => true, (r: Row) => r.payload.cached);
    TotalMore(rows, x, (r: Row) => true, (r: Row) => r.payload.output);
    TotalMore(rows, x, (r: Row) => true, (r: Row) => r.payload.reasoning);
    TotalMore(rows, x, (r: Row) => true, (r: Row) => r.payload.quota);
    KnownMore(rows, x, (r: Row) => true, (r: Row) => r.payload.exposure);
    KnownDurationMore(rows, x, (r: Row) => r.payload.latency);
    KnownDurationMore(rows, x, (r: Row) => r.payload.queueWait);
    CountMore(rows, x, (r: Row) => r.when == None);
    ModelsMore(rows, x);
  }

  lemma ModelsMore(rows: seq<Row>, x: Row)
    ensures Models(rows + [x]) == Models(rows) + if x.payload.model.Some? then {x.payload.model.value} else {}
  {
    var more := rows + [x];
    assert more[|rows|] == x;
    forall m | m in Models(rows) ensures m in Models(more) {
      var i :| 0 <= i < |rows| && rows[i].payload.model == Some(m);
      assert more[i].payload.model == Some(m);
    }
  }

  lemma AllRows(rows: seq<Row>)
    ensures Count(rows, (r: Row) => true) == |rows|
    decreases |rows|
  {
    if rows != [] {
      AllRows(rows[..|rows| - 1]);
      assert rows == rows[..|rows| - 1] + [rows[|rows| - 1]];
      CountMore(rows[..|rows| - 1], rows[|rows| - 1], (r: Row) => true);
    }
  }

  /** The totals of the report, by the rows alone. */
  lemma ReportCounts(rows: seq<Row>, conflicts: nat)
    ensures var report := ReportOf(rows, conflicts);
      && report.conflicts == conflicts
      && report.sums.bucket.requests == |rows|
      && Counts(report.sums.bucket, rows, (r: Row) => true) && Measures(report.sums, rows)
  {
    hide Measures, Sum, Count, Known, Buckets;
    TallyCounts(rows);
    SumMeasures(rows);
    AllRows(rows);
  }

  lemma BucketCounts(rows: seq<Row>, dim: Dimension, key: string, p: Row -> bool)
    requires forall r :: p(r) <==> KeyOf(r, dim) == Some(key)
    ensures key in Buckets(rows, dim) <==> exists i :: 0 <= i < |rows| && p(rows[i])
    ensures key in Buckets(rows, dim) ==> Counts(Buckets(rows, dim)[key], rows, p)
  {
    hide Counts, Tally, Select, KeyOf, Keys;
    KeysAreUsed(rows, dim, key);
    GroupCounts(rows, dim, Some(key), p);
  }

  /** Its buckets: there is one for each key that some row has, and it counts the rows of its
      key. */
  lemma ReportBuckets(rows: seq<Row>, conflicts: nat, key: string)
    ensures var report := ReportOf(rows, conflicts);
      && (key in report.byEpisode <==> exists i :: 0 <= i < |rows| && rows[i].payload.episode == key)
      && (key in report.byEpisode ==> Counts(report.byEpisode[key], rows, (r: Row) => r.payload.episode == key))
      && (key in report.byWorker <==> exists i :: 0 <= i < |rows| && rows[i].worker == key)
      && (key in report.byWorker ==> Counts(report.byWorker[key], rows, (r: Row) => r.worker == key))
  {
    hide Counts, Buckets, Sum;
    BucketCounts(rows, ByEpisode, key, (r: Row) => r.payload.episode == key);
    BucketCounts(rows, ByWorker, key, (r: Row) => r.worker == key);
  }

  lemma ReportExperiments(rows: seq<Row>, conflicts: nat)
    ensures var report := ReportOf(rows, conflicts);
      && report.byExperiment.Keys <= {"true", "false"}
      && ("true" in report.byExperiment ==> Counts(report.byExperiment["true"], rows, (r: Row) => r.payload.experiment))
      && ("false" in report.byExperiment ==> Counts(report.byExperiment["false"], rows, (r: Row) => !r.payload.experiment))
  {
    hide Counts, Sum, Tally, Select, Keys;
    BucketCounts(rows, ByExperiment, "true", (r: Row) => r.payload.experiment);
    BucketCounts(rows, ByExperiment, "false", (r: Row) => !r.payload.experiment);
    forall key | key in Buckets(rows, ByExperiment) ensures key in {"true", "false"} {
      KeysAreUsed(rows, ByExperiment, key);
    }
  }

  lemma ReportMonths(rows: seq<Row>, conflicts: nat, key: string)
    ensures var report := ReportOf(rows, conflicts);
      && (key in report.byMonth <==> exists i :: 0 <= i < |rows| && InMonth(rows[i], key))
      && (key in report.byMonth ==> Counts(report.byMonth[key], rows, (r: Row) => InMonth(r, key)))
  {
    hide Counts, Buckets, Sum;
    BucketCounts(rows, ByMonth, key, (r: Row) => InMonth(r, key));
  }

  /** The row has a time, and the key is its year and its two-digit month. */
  predicate InMonth(r: Row, key: string) {
    && r.when.Some?
    && var month := Decimal(r.when.value.month);
       key == Decimal(r.when.value.year) + "-" + if r.when.value.month < 10 then "0" + month else month
  }
}

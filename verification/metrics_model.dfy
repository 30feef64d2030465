/** Rows of operational metrics and the report over them, as sums. Money is whole micro-USD,
    durations are exact. */
module MetricsModel {
  import opened Wrappers
  import opened Texts
  import opened SortedSets

  datatype Billing = Authenticated | Unauthenticated | Unknown

  /** A UTC instant, with its calendar year and month. */
  datatype When = When(instant: int, year: nat, month: nat)

  /** What identifies an observation's content; its hash is modelled by the payload itself.
      Worker and time of observation are not part of it. */
  datatype Payload = Payload(episode: string, experiment: bool, model: Option<string>,
                             input: Option<nat>, cached: Option<nat>, output: Option<nat>, reasoning: Option<nat>,
                             latency: Option<real>, queueWait: Option<real>, exposure: Option<nat>,
                             quota: Option<nat>, billing: Billing, money: Option<nat>)

  datatype Row = Row(requestId: string, eventId: string, worker: string, when: Option<When>, payload: Payload)

  // ---------- Sums ----------

  datatype Bucket = Bucket(requests: nat, money: Option<nat>, unknown: nat, unauthenticated: nat)

  datatype Sums = Sums(bucket: Bucket, input: nat, cached: nat, output: nat, reasoning: nat, quota: nat,
                       latency: Option<real>, queueWait: Option<real>, exposure: Option<nat>,
                       unknownTimestamps: nat, models: set<string>)

  function PlusNat(a: Option<nat>, b: Option<nat>): Option<nat> {
    if a.None? then b else if b.None? then a else Some(a.value + b.value)
  }

  function PlusReal(a: Option<real>, b: Option<real>): Option<real> {
    if a.None? then b else if b.None? then a else Some(a.value + b.value)
  }

  function Or0(n: Option<nat>): nat {
    if n.Some? then n.value else 0
  }

  function PlusBucket(a: Bucket, b: Bucket): Bucket {
    Bucket(a.requests + b.requests, PlusNat(a.money, b.money), a.unknown + b.unknown, a.unauthenticated + b.unauthenticated)
  }

  function Plus(a: Sums, b: Sums): Sums {
    Sums(PlusBucket(a.bucket, b.bucket), a.input + b.input, a.cached + b.cached, a.output + b.output,
         a.reasoning + b.reasoning, a.quota + b.quota, PlusReal(a.latency, b.latency),
         PlusReal(a.queueWait, b.queueWait), PlusNat(a.exposure, b.exposure),
         a.unknownTimestamps + b.unknownTimestamps, a.models + b.models)
  }

  const ZERO_BUCKET := Bucket(0, None, 0, 0)

  const ZERO := Sums(ZERO_BUCKET, 0, 0, 0, 0, 0, None, None, None, 0, {})

  function BucketOf(row: Row): Bucket {
    Bucket(1, row.payload.money, if row.payload.billing.Unknown? then 1 else 0,
           if row.payload.billing.Unauthenticated? then 1 else 0)
  }

  function SumsOf(row: Row): Sums {
    var p := row.payload;
    Sums(BucketOf(row), Or0(p.input), Or0(p.cached), Or0(p.output), Or0(p.reasoning), Or0(p.quota),
         p.latency, p.queueWait, p.exposure, if row.when.None? then 1 else 0,
         if p.model.Some? then {p.model.value} else {})
  }

  function Sum(rows: seq<Row>): Sums {
    if rows == [] then ZERO else Plus(Sum(rows[..|rows| - 1]), SumsOf(rows[|rows| - 1]))
  }

  /** The part of the sums that every bucket holds. */
  function Tally(rows: seq<Row>): Bucket {
    Sum(rows).bucket
  }

  lemma SumMore(rows: seq<Row>, x: Row)
    ensures Sum(rows + [x]) == Plus(Sum(rows), SumsOf(x))
  {
    assert (rows + [x])[..|rows|] == rows;
  }

  lemma TallyMore(rows: seq<Row>, x: Row)
    ensures Tally(rows + [x]) == PlusBucket(Tally(rows), BucketOf(x))
  {
    SumMore(rows, x);
  }

  lemma PlusBucketLaws(a: Bucket, b: Bucket, c: Bucket)
    ensures PlusBucket(a, b) == PlusBucket(b, a)
    ensures PlusBucket(PlusBucket(a, b), c) == PlusBucket(a, PlusBucket(b, c))
    ensures PlusBucket(a, ZERO_BUCKET) == a == PlusBucket(ZERO_BUCKET, a)
  {
  }

  lemma PlusCommutes(a: Sums, b: Sums)
    ensures Plus(a, b) == Plus(b, a)
  {
  }

  lemma PlusAssociates(a: Sums, b: Sums, c: Sums)
    ensures Plus(Plus(a, b), c) == Plus(a, Plus(b, c))
  {
  }

  lemma {:induction false} SumInsert(p: seq<Row>, x: Row, q: seq<Row>)
    ensures Sum(p + [x] + q) == Plus(Sum(p + q), SumsOf(x))
    decreases |q|
  {
    hide Plus, SumsOf;
    if q == [] {
      assert p + [x] + q == p + [x];
      assert p + q == p;
      assert (p + [x])[..|p|] == p;
    } else {
      var rest, last := q[..|q| - 1], q[|q| - 1];
      assert (p + [x] + q)[..|p + [x] + q| - 1] == p + [x] + rest;
      assert (p + q)[..|p + q| - 1] == p + rest;
      SumInsert(p, x, rest);
      PlusAssociates(Sum(p + rest), SumsOf(x), SumsOf(last));
      PlusCommutes(SumsOf(x), SumsOf(last));
      PlusAssociates(Sum(p + rest), SumsOf(last), SumsOf(x));
    }
  }

  /** The same items without one occurrence of the last of `a`. */
  lemma WithoutLast<T>(a: seq<T>, b: seq<T>) returns (p: seq<T>, q: seq<T>)
    requires multiset(a) == multiset(b) && a != []
    ensures b == p + [a[|a| - 1]] + q && multiset(a[..|a| - 1]) == multiset(p + q)
  {
    var rest, x := a[..|a| - 1], a[|a| - 1];
    assert a == rest + [x];
    assert x in multiset(b);
    var i :| 0 <= i < |b| && b[i] == x;
    p, q := b[..i], b[i + 1..];
    assert b == p + [x] + q;
    assert multiset(p + q) == multiset(b) - multiset{x};
    assert multiset(rest) == multiset(a) - multiset{x};
  }

  /** The sums do not depend on the order of the rows. */
  lemma {:induction false} SumIgnoresOrder(a: seq<Row>, b: seq<Row>)
    requires multiset(a) == multiset(b)
    ensures Sum(a) == Sum(b)
    decreases |a|
  {
    hide Sum, Plus, SumsOf;
    assert |a| == |multiset(a)| == |multiset(b)| == |b|;
    if a != [] {
      var rest, x := a[..|a| - 1], a[|a| - 1];
      var p, q := WithoutLast(a, b);
      SumIgnoresOrder(rest, p + q);
      SumInsert(p, x, q);
      SumMore(rest, x);
      assert a == rest + [x];
    }
  }

  // ---------- Dimensions ----------

  datatype Dimension = ByEpisode | ByMonth | ByExperiment | ByWorker

  function TwoDigits(n: nat): string {
    if n < 10 then "0" + Decimal(n) else Decimal(n)
  }

  function MonthKey(w: When): string {
    Decimal(w.year) + "-" + TwoDigits(w.month)
  }

  function KeyOf(row: Row, dim: Dimension): Option<string> {
    match dim
    case ByEpisode => Some(row.payload.episode)
    case ByMonth => if row.when.Some? then Some(MonthKey(row.when.value)) else None
    case ByExperiment => Some(if row.payload.experiment then "true" else "false")
    case ByWorker => Some(row.worker)
  }

  function Select(rows: seq<Row>, dim: Dimension, key: Option<string>): seq<Row> {
    if rows == [] then []
    else
      Select(rows[..|rows| - 1], dim, key)
      + if KeyOf(rows[|rows| - 1], dim) == key then [rows[|rows| - 1]] else []
  }

  function Keys(rows: seq<Row>, dim: Dimension): set<string> {
    if rows == [] then {}
    else
      var key := KeyOf(rows[|rows| - 1], dim);
      Keys(rows[..|rows| - 1], dim) + if key.Some? then {key.value} else {}
  }

  function Buckets(rows: seq<Row>, dim: Dimension): map<string, Bucket> {
    map key | key in Keys(rows, dim) :: Tally(Select(rows, dim, Some(key)))
  }

  datatype Report = Report(sums: Sums, conflicts: nat, byEpisode: map<string, Bucket>, byMonth: map<string, Bucket>,
                           byExperiment: map<string, Bucket>, byWorker: map<string, Bucket>)

  function ReportOf(rows: seq<Row>, conflicts: nat): Report {
    Report(Sum(rows), conflicts, Buckets(rows, ByEpisode), Buckets(rows, ByMonth), Buckets(rows, ByExperiment),
           Buckets(rows, ByWorker))
  }

  lemma SelectMore(rows: seq<Row>, x: Row, dim: Dimension, key: Option<string>)
    ensures Select(rows + [x], dim, key) == Select(rows, dim, key) + if KeyOf(x, dim) == key then [x] else []
  {
    assert (rows + [x])[..|rows|] == rows;
  }

  lemma KeysMore(rows: seq<Row>, x: Row, dim: Dimension)
    ensures Keys(rows + [x], dim) == Keys(rows, dim) + if KeyOf(x, dim).Some? then {KeyOf(x, dim).value} else {}
  {
    assert (rows + [x])[..|rows|] == rows;
  }

  /** One more row in a group adds the row's bucket to the group's. */
  lemma GroupMore(rows: seq<Row>, x: Row, dim: Dimension, key: Option<string>)
    ensures Tally(Select(rows + [x], dim, key)) ==
      if KeyOf(x, dim) == key then PlusBucket(Tally(Select(rows, dim, key)), BucketOf(x)) else Tally(Select(rows, dim, key))
  {
    hide Tally, Select;
    SelectMore(rows, x, dim, key);
    if KeyOf(x, dim) == key {
      TallyMore(Select(rows, dim, key), x);
    } else {
      assert Select(rows, dim, key) + [] == Select(rows, dim, key);
    }
  }

  lemma {:induction false} KeysAreUsed(rows: seq<Row>, dim: Dimension, key: string)
    ensures key in Keys(rows, dim) <==> exists i :: 0 <= i < |rows| && KeyOf(rows[i], dim) == Some(key)
  {
    if rows != [] {
      KeysAreUsed(rows[..|rows| - 1], dim, key);
    }
  }

  lemma {:induction false} UnusedKeySelectsNothing(rows: seq<Row>, dim: Dimension, key: string)
    requires key !in Keys(rows, dim)
    ensures Select(rows, dim, Some(key)) == []
  {
    if rows != [] {
      UnusedKeySelectsNothing(rows[..|rows| - 1], dim, key);
    }
  }

  // ---------- The report does not depend on the order of rows ----------

  lemma {:induction false} SelectCounts(rows: seq<Row>, dim: Dimension, key: Option<string>, x: Row)
    ensures multiset(Select(rows, dim, key))[x] == if KeyOf(x, dim) == key then multiset(rows)[x] else 0
  {
    if rows != [] {
      var rest, last := rows[..|rows| - 1], rows[|rows| - 1];
      SelectCounts(rest, dim, key, x);
      assert rows == rest + [last];
      assert multiset(rows) == multiset(rest) + multiset{last};
      if KeyOf(last, dim) == key {
        assert multiset(Select(rows, dim, key)) == multiset(Select(rest, dim, key)) + multiset{last};
      }
    }
  }

  lemma SelectIgnoresOrder(a: seq<Row>, b: seq<Row>, dim: Dimension, key: Option<string>)
    requires multiset(a) == multiset(b)
    ensures multiset(Select(a, dim, key)) == multiset(Select(b, dim, key))
  {
    forall x: Row ensures multiset(Select(a, dim, key))[x] == multiset(Select(b, dim, key))[x] {
      SelectCounts(a, dim, key, x);
      SelectCounts(b, dim, key, x);
    }
  }

  lemma KeysIgnoreOrder(a: seq<Row>, b: seq<Row>, dim: Dimension)
    requires multiset(a) == multiset(b)
    ensures Keys(a, dim) <= Keys(b, dim)
  {
    forall key | key in Keys(a, dim) ensures key in Keys(b, dim) {
      KeysAreUsed(a, dim, key);
      KeysAreUsed(b, dim, key);
      var i :| 0 <= i < |a| && KeyOf(a[i], dim) == Some(key);
      assert a[i] in multiset(b);
    }
  }

  lemma BucketsIgnoreOrder(a: seq<Row>, b: seq<Row>, dim: Dimension)
    requires multiset(a) == multiset(b)
    ensures Buckets(a, dim) == Buckets(b, dim)
  {
    KeysIgnoreOrder(a, b, dim);
    KeysIgnoreOrder(b, a, dim);
    forall key | key in Keys(a, dim) ensures Buckets(a, dim)[key] == Buckets(b, dim)[key] {
      SelectIgnoresOrder(a, b, dim, Some(key));
      SumIgnoresOrder(Select(a, dim, Some(key)), Select(b, dim, Some(key)));
    }
  }

  lemma ReportIgnoresOrder(a: seq<Row>, b: seq<Row>, conflicts: nat)
    requires multiset(a) == multiset(b)
    ensures ReportOf(a, conflicts) == ReportOf(b, conflicts)
  {
    SumIgnoresOrder(a, b);
    BucketsIgnoreOrder(a, b, ByEpisode);
    BucketsIgnoreOrder(a, b, ByMonth);
    BucketsIgnoreOrder(a, b, ByExperiment);
    BucketsIgnoreOrder(a, b, ByWorker);
  }

  // ---------- Conservation ----------

  /** The sum of the buckets of `rows` under these keys. */
  function Together(rows: seq<Row>, dim: Dimension, keys: seq<string>): Bucket {
    if keys == [] then ZERO_BUCKET
    else PlusBucket(Together(rows, dim, keys[..|keys| - 1]), Tally(Select(rows, dim, Some(keys[|keys| - 1]))))
  }

  /** A row counts in the bucket of its own key and in no other. */
  lemma {:induction false} TogetherBump(rows: seq<Row>, x: Row, dim: Dimension, keys: seq<string>)
    requires Distinct(keys)
    ensures Together(rows + [x], dim, keys) ==
      if KeyOf(x, dim).Some? && KeyOf(x, dim).value in keys then PlusBucket(Together(rows, dim, keys), BucketOf(x))
      else Together(rows, dim, keys)
    decreases |keys|
  {
    hide Tally, Select, PlusBucket, BucketOf, KeyOf;
    if keys != [] {
      var rest, last := keys[..|keys| - 1], keys[|keys| - 1];
      assert keys == rest + [last] && last !in rest;
      TogetherBump(rows, x, dim, rest);
      GroupMore(rows, x, dim, Some(last));
      var group := Tally(Select(rows, dim, Some(last)));
      PlusBucketLaws(Together(rows, dim, rest), BucketOf(x), group);
      PlusBucketLaws(Together(rows, dim, rest), group, BucketOf(x));
      PlusBucketLaws(group, BucketOf(x), ZERO_BUCKET);
    }
  }

  lemma {:induction false} EmptyTogether(rows: seq<Row>, dim: Dimension, keys: seq<string>)
    requires rows == []
    ensures Together(rows, dim, keys) == ZERO_BUCKET
    decreases |keys|
  {
    if keys != [] {
      EmptyTogether(rows, dim, keys[..|keys| - 1]);
      EmptyTally(rows, dim, Some(keys[|keys| - 1]));
    }
  }

  /** Requests, money and the two kinds of unpaid request are conserved: the buckets of a
      dimension, in any enumeration, and the rows without a key in it add up to all rows. */
  lemma {:induction false} BucketsConserve(rows: seq<Row>, dim: Dimension, keys: seq<string>)
    requires Distinct(keys) && forall key :: key in Keys(rows, dim) ==> key in keys
    ensures PlusBucket(Together(rows, dim, keys), Tally(Select(rows, dim, None))) == Tally(rows)
    decreases |rows|
  {
    hide Tally, Select, PlusBucket, BucketOf, KeyOf;
    if rows == [] {
      EmptyTogether(rows, dim, keys);
      EmptyTally(rows, dim, None);
    } else {
      var rest, x := rows[..|rows| - 1], rows[|rows| - 1];
      assert rows == rest + [x];
      KeysMore(rest, x, dim);
      BucketsConserve(rest, dim, keys);
      TogetherBump(rest, x, dim, keys);
      GroupMore(rest, x, dim, None);
      TallyMore(rest, x);
      var groups, none := Together(rest, dim, keys), Tally(Select(rest, dim, None));
      PlusBucketLaws(groups, none, BucketOf(x));
      PlusBucketLaws(none, BucketOf(x), ZERO_BUCKET);
      PlusBucketLaws(groups, BucketOf(x), none);
    }
  }

  lemma EmptyTally(rows: seq<Row>, dim: Dimension, key: Option<string>)
    requires rows == []
    ensures Select(rows, dim, key) == [] && Tally(rows) == ZERO_BUCKET
    ensures PlusBucket(ZERO_BUCKET, ZERO_BUCKET) == ZERO_BUCKET
  {
    hide Plus, PlusBucket, SumsOf, KeyOf;
    PlusBucketLaws(ZERO_BUCKET, ZERO_BUCKET, ZERO_BUCKET);
    assert Select(rows, dim, key) == [];
    assert Sum(rows) == ZERO;
  }

  /** Episodes, experiments and workers each account for every row. */
  lemma {:induction false} EveryRowHasKey(rows: seq<Row>, dim: Dimension)
    requires dim != ByMonth
    ensures Select(rows, dim, None) == []
    decreases |rows|
  {
    if rows != [] {
      EveryRowHasKey(rows[..|rows| - 1], dim);
    }
  }

  lemma TotalsConserve(rows: seq<Row>, dim: Dimension, keys: seq<string>)
    requires dim != ByMonth && Distinct(keys) && forall key :: key in Keys(rows, dim) ==> key in keys
    ensures Together(rows, dim, keys) == Tally(rows)
  {
    hide Select, Together;
    BucketsConserve(rows, dim, keys);
    EveryRowHasKey(rows, dim);
    PlusBucketLaws(Together(rows, dim, keys), ZERO_BUCKET, ZERO_BUCKET);
  }

  /** The rows without a month are those counted as having an unknown timestamp. */
  lemma {:induction false} MonthlessAreUntimed(rows: seq<Row>)
    ensures Tally(Select(rows, ByMonth, None)).requests == Sum(rows).unknownTimestamps
    decreases |rows|
  {
    hide PlusNat, PlusReal, Or0, MonthKey;
    if rows != [] {
      var rest, x := rows[..|rows| - 1], rows[|rows| - 1];
      assert rows == rest + [x];
      MonthlessAreUntimed(rest);
      GroupMore(rest, x, ByMonth, None);
    }
  }

  lemma MonthsConserve(rows: seq<Row>, keys: seq<string>)
    requires Distinct(keys) && forall key :: key in Keys(rows, ByMonth) ==> key in keys
    ensures Together(rows, ByMonth, keys).requests + Sum(rows).unknownTimestamps == Sum(rows).bucket.requests
  {
    BucketsConserve(rows, ByMonth, keys);
    MonthlessAreUntimed(rows);
  }

  /** Only authenticated rows carry money. */
  predicate MoneyIsAuthenticated(row: Row) {
    row.payload.money.Some? <==> row.payload.billing.Authenticated?
  }

  /** Total money is null exactly when every row is UNKNOWN or UNAUTHENTICATED. */
  lemma {:induction false} NoMoneyIffNoneAuthenticated(rows: seq<Row>)
    requires forall row :: row in rows ==> MoneyIsAuthenticated(row)
    ensures Sum(rows).bucket.money == None <==> forall row :: row in rows ==> !row.payload.billing.Authenticated?
    ensures Sum(rows).bucket.money == None <==>
      Sum(rows).bucket.requests == Sum(rows).bucket.unknown + Sum(rows).bucket.unauthenticated
    ensures Sum(rows).bucket.requests >= Sum(rows).bucket.unknown + Sum(rows).bucket.unauthenticated
  {
    if rows != [] {
      var rest, x := rows[..|rows| - 1], rows[|rows| - 1];
      assert rows == rest + [x];
      assert x in rows;
      NoMoneyIffNoneAuthenticated(rest);
    }
  }

  // ---------- The loop over the rows ----------

  function Bumped(buckets: map<string, Bucket>, key: Option<string>, row: Row): map<string, Bucket> {
    if key.None? then buckets
    else
      buckets[key.value := PlusBucket(if key.value in buckets then buckets[key.value] else ZERO_BUCKET, BucketOf(row))]
  }

  lemma BucketsOneMore(rows: seq<Row>, x: Row, dim: Dimension)
    ensures Buckets(rows + [x], dim) == Bumped(Buckets(rows, dim), KeyOf(x, dim), x)
  {
    hide Tally, Select, PlusBucket, BucketOf, KeyOf;
    var more := rows + [x];
    var key, bumped := KeyOf(x, dim), Bumped(Buckets(rows, dim), KeyOf(x, dim), x);
    KeysMore(rows, x, dim);
    assert bumped.Keys == Keys(more, dim);
    forall k | k in Keys(more, dim) ensures Buckets(more, dim)[k] == bumped[k] {
      GroupMore(rows, x, dim, Some(k));
      if k !in Keys(rows, dim) {
        UnusedKeySelectsNothing(rows, dim, k);
        EmptyTally([], dim, None);
      }
    }
  }

  lemma EmptyReport()
    ensures Sum([]) == ZERO
    ensures forall dim :: Buckets([], dim) == map[]
  {
  }

  /** `_report_from_rows`. */
  method ReportFromRows(rows: seq<Row>, conflicts: nat) returns (report: Report)
    ensures report == ReportOf(rows, conflicts)
  {
    var sums := ZERO;
    var byEpisode, byMonth, byExperiment, byWorker: map<string, Bucket> := map[], map[], map[], map[];
    hide Buckets, Bumped, Sum, Plus, SumsOf, MonthKey;
    EmptyReport();
    for i := 0 to |rows|
      invariant sums == Sum(rows[..i])
      invariant byEpisode == Buckets(rows[..i], ByEpisode) && byMonth == Buckets(rows[..i], ByMonth)
      invariant byExperiment == Buckets(rows[..i], ByExperiment) && byWorker == Buckets(rows[..i], ByWorker)
    {
      var row := rows[i];
      assert rows[..i + 1] == rows[..i] + [row];
      BucketsOneMore(rows[..i], row, ByEpisode);
      BucketsOneMore(rows[..i], row, ByMonth);
      BucketsOneMore(rows[..i], row, ByExperiment);
      BucketsOneMore(rows[..i], row, ByWorker);
      byEpisode := Bumped(byEpisode, Some(row.payload.episode), row);
      byExperiment := Bumped(byExperiment, Some(if row.payload.experiment then "true" else "false"), row);
      byWorker := Bumped(byWorker, Some(row.worker), row);
      byMonth := Bumped(byMonth, if row.when.Some? then Some(MonthKey(row.when.value)) else None, row);
      SumMore(rows[..i], row);
      sums := Plus(sums, SumsOf(row));
    }
    assert rows[..|rows|] == rows;
    return Report(sums, conflicts, byEpisode, byMonth, byExperiment, byWorker);
  }
}

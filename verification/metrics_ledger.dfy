/** The metrics ledger as a writer of two stores: the tables, and a snapshot file that says
    WRITER_IN_PROGRESS while they change. The ghost field `saves` is the run so far. */
module MetricsLedger {
  import opened Wrappers
  import opened Texts
  import opened MetricsModel
  import opened Metrics
  import Runs

  const SNAPSHOT_MAX_AGE := 300

  /** The snapshot file, with the second it was generated. */
  datatype Snapshot = Missing | InProgress(at: int) | Current(at: int, report: Report)

  datatype World = World(tables: Tables, snapshot: Snapshot, writing: bool)

  datatype Step =
    | Mark(at: int)
    | Append(row: Row)
    | Note(row: Row)
    | Publish(at: int)
    | Leave

  predicate Enabled(s: Step, w: World) {
    match s
    case Mark(_) => !w.writing
    case Append(row) => w.writing && Reconciled(w.tables, row).1 == Added
    case Note(row) => w.writing && Reconciled(w.tables, row).1 == Conflicted
    case Publish(_) => w.writing
    case Leave => true
  }

  function Effect(s: Step, w: World): World
    requires Enabled(s, w)
  {
    match s
    case Mark(at) => w.(snapshot := InProgress(at), writing := true)
    case Append(row) => w.(tables := Reconciled(w.tables, row).0)
    case Note(row) => w.(tables := Reconciled(w.tables, row).0)
    case Publish(at) => w.(snapshot := Current(at, CurrentReport(w.tables)), writing := false)
    case Leave => w.(writing := false)
  }

  predicate Init(w: World) {
    w == World(Tables([], map[]), Missing, false)
  }

  ghost predicate Next(w: World, w': World) {
    exists s: Step :: Enabled(s, w) && w' == Effect(s, w)
  }

  ghost predicate IsLedgerRun(run: seq<World>) {
    Runs.IsRun(Init, Next, run)
  }

  ghost predicate Inv(w: World) {
    && Identified(w.tables.rows)
    && (w.writing ==> w.snapshot.InProgress?)
    && (w.snapshot.Current? ==> w.snapshot.report == CurrentReport(w.tables))
  }

  lemma StepKeepsInv(w: World, w': World)
    requires Inv(w) && Next(w, w')
    ensures Inv(w')
  {
    hide Reconciled, ReportOf;
    var s: Step :| Enabled(s, w) && w' == Effect(s, w);
    if s.Append? || s.Note? {
      ReconcileAppends(w.tables, s.row);
    }
  }

  lemma HoldsAt(run: seq<World>, i: nat)
    requires IsLedgerRun(run) && i < |run|
    ensures Inv(run[i])
  {
    forall w, w' | Inv(w) && Next(w, w') ensures Inv(w') {
      StepKeepsInv(w, w');
    }
    Runs.InvariantAt(Init, Next, Inv, run, i);
  }

  /** At every crash point the identities are unique, and a CURRENT snapshot is the report over
      the committed rows. */
  lemma SnapshotIsFold(run: seq<World>, i: nat)
    requires IsLedgerRun(run) && i < |run|
    ensures Identified(run[i].tables.rows)
    ensures run[i].snapshot.Current? ==>
      run[i].snapshot.report == ReportOf(run[i].tables.rows, |run[i].tables.conflicts|)
  {
    HoldsAt(run, i);
  }

  ghost predicate Extends(t: Tables, later: Tables) {
    && t.rows <= later.rows
    && forall k :: k in t.conflicts ==> k in later.conflicts && later.conflicts[k] == t.conflicts[k]
  }

  lemma StepExtends(w: World, w': World)
    requires Inv(w) && Next(w, w')
    ensures Extends(w.tables, w'.tables)
  {
    hide Noted, Matches, ReportOf;
    var s: Step :| Enabled(s, w) && w' == Effect(s, w);
    if s.Append? || s.Note? {
      ReconcileAppends(w.tables, s.row);
      NotedKeys(w.tables.conflicts, Matches(w.tables.rows, s.row), s.row);
    }
  }

  /** Rows and conflicts are only ever appended. */
  lemma {:induction false} RowsAreAppended(run: seq<World>, i: nat, j: nat)
    requires IsLedgerRun(run) && i <= j < |run|
    ensures Extends(run[i].tables, run[j].tables)
    decreases j
  {
    if i < j {
      RowsAreAppended(run, i, j - 1);
      HoldsAt(run, j - 1);
      Runs.StepAt(Init, Next, run, j - 1);
      StepExtends(run[j - 1], run[j]);
    }
  }

  // ---------- Reading ----------

  /** The bounded shapes that `read_snapshot` insists on. */
  predicate MonthFormat(key: string) {
    && |key| == 7 && key[4] == '-'
    && IsDigit(key[0]) && IsDigit(key[1]) && IsDigit(key[2]) && IsDigit(key[3])
    && ((key[5] == '0' && '1' <= key[6] <= '9') || (key[5] == '1' && '0' <= key[6] <= '2'))
  }

  predicate ValidReport(r: Report) {
    && Duration(r.sums.latency) && Duration(r.sums.queueWait)
    && (forall m :: m in r.sums.models ==> 1 <= |m| <= 128)
    && (forall k :: k in r.byEpisode ==> Opaque(k)) && (forall k :: k in r.byWorker ==> Opaque(k))
    && (forall k :: k in r.byMonth ==> MonthFormat(k))
    && (forall k :: k in r.byExperiment ==> k in {"true", "false"})
  }

  datatype Status = Nothing | WriterInProgress | ClockPolicy | Expired | Invalid | Fresh(report: Report)

  /** `read_snapshot`, for an aware clock. The file is only ever replaced atomically, so its
      hash always fits. */
  function Read(s: Snapshot, now: int): Status {
    match s
    case Missing => Nothing
    case InProgress(_) => WriterInProgress
    case Current(at, report) =>
      if now < at then ClockPolicy
      else if now - at > SNAPSHOT_MAX_AGE then Expired
      else if !ValidReport(report) then Invalid
      else Fresh(report)
  }

  /** The status of any file at any clock, one that another writer has left as well: a report is
      handed out exactly when it is from the last 300 seconds and has the closed shapes, a month
      being four digits, a hyphen and a two-digit number from 1 to 12. */
  lemma ReadMeans(s: Snapshot, now: int)
    ensures var status := Read(s, now);
      && (status == Nothing <==> s == Missing) && (status == WriterInProgress <==> s.InProgress?)
      && (status == ClockPolicy <==> s.Current? && now < s.at)
      && (status == Expired <==> s.Current? && now > s.at + 300)
      && (status.Fresh? <==> s.Current? && s.at <= now <= s.at + 300 && Shaped(s.report))
      && (status.Fresh? ==> status.report == s.report)
  {
    hide Opaque;
    if s.Current? {
      forall key | key in s.report.byMonth ensures MonthFormat(key) <==> MonthOfYear(key) {
        MonthFormatIs(key);
      }
    }
  }

  ghost predicate Shaped(r: Report) {
    && (r.sums.latency != None ==> r.sums.latency.value >= 0.0) && (r.sums.queueWait != None ==> r.sums.queueWait.value >= 0.0)
    && (forall m :: m in r.sums.models ==> m != "" && |m| <= 128)
    && r.byExperiment.Keys <= {"true", "false"}
    && (forall key :: key in r.byMonth ==> MonthOfYear(key))
    && (forall key :: key in r.byEpisode || key in r.byWorker ==> Opaque(key))
  }

  predicate MonthOfYear(key: string) {
    && |key| == 7 && IsNumeral(key[..4]) && key[4] == '-'
    && IsNumeral(key[5..]) && 1 <= Value(key[5..]) <= 12
  }

  lemma MonthFormatIs(key: string)
    ensures MonthFormat(key) <==> MonthOfYear(key)
  {
    if |key| == 7 {
      var year, month := key[..4], key[5..];
      assert year == [key[0], key[1], key[2], key[3]] && month == [key[5], key[6]];
      assert year[0] in year && year[1] in year && year[2] in year && year[3] in year;
      assert month[0] in month && month[1] in month;
      if IsNumeral(month) {
        assert month[..1] == [key[5]] && month[..1][..0] == [];
        assert Value(month[..1]) == DigitValue(key[5]) by {
          assert Value(month[..1]) == 10 * Value(month[..1][..0]) + DigitValue(month[..1][0]);
        }
        assert Value(month) == 10 * DigitValue(key[5]) + DigitValue(key[6]);
      }
    }
  }

  predicate Dated(w: When) {
    1000 <= w.year <= 9999 && 1 <= w.month <= 12
  }

  /** What every row has that came through `Acceptable`, with a four-digit year. */
  predicate Wellformed(row: Row) {
    && Opaque(row.payload.episode) && Opaque(row.worker)
    && Duration(row.payload.latency) && Duration(row.payload.queueWait)
    && (row.payload.model.Some? ==> 1 <= |row.payload.model.value| <= 128)
    && (row.when.Some? ==> Dated(row.when.value))
  }

  lemma AcceptedIsWellformed(catalog: set<string>, o: Observation)
    requires Acceptable(o) && forall m :: m in catalog ==> 1 <= |m| <= 128
    requires o.observedAt.Some? ==> Dated(o.observedAt.value)
    ensures Wellformed(RowOf(catalog, o))
  {
  }

  lemma DecimalDigits(n: nat)
    ensures n < 10 ==> |Decimal(n)| == 1
    ensures 10 <= n < 100 ==> |Decimal(n)| == 2 && Decimal(n) == [Digit(n / 10), Digit(n % 10)]
    ensures 1000 <= n < 10000 ==> |Decimal(n)| == 4
  {
    if 1000 <= n < 10000 {
      assert 10 <= n / 100 < 100 && n / 10 / 10 == n / 100;
      assert |Decimal(n / 100)| == 2;
      assert |Decimal(n / 10)| == 3;
    }
  }

  lemma MonthKeyFits(w: When)
    requires Dated(w)
    ensures MonthFormat(MonthKey(w))
  {
    DecimalDigits(w.year);
    DecimalDigits(w.month);
    DecimalRoundTrip(w.year);
    var year := Decimal(w.year);
    assert year[0] in year && year[1] in year && year[2] in year && year[3] in year;
  }

  lemma {:induction false} SumIsValid(rows: seq<Row>)
    requires forall i :: 0 <= i < |rows| ==> Wellformed(rows[i])
    ensures Duration(Sum(rows).latency) && Duration(Sum(rows).queueWait)
    ensures forall m :: m in Sum(rows).models ==> 1 <= |m| <= 128
  {
    hide Opaque, Dated, PlusBucket, PlusNat, BucketOf;
    if rows != [] {
      SumIsValid(rows[..|rows| - 1]);
    }
  }

  predicate ValidKey(dim: Dimension, key: string) {
    match dim
    case ByEpisode | ByWorker => Opaque(key)
    case ByMonth => MonthFormat(key)
    case ByExperiment => key in {"true", "false"}
  }

  lemma KeyIsValid(rows: seq<Row>, dim: Dimension, key: string)
    requires (forall i :: 0 <= i < |rows| ==> Wellformed(rows[i])) && key in Keys(rows, dim)
    ensures ValidKey(dim, key)
  {
    hide Opaque, MonthFormat, MonthKey, Keys;
    KeysAreUsed(rows, dim, key);
    var i :| 0 <= i < |rows| && KeyOf(rows[i], dim) == Some(key);
    if dim == ByMonth {
      MonthKeyFits(rows[i].when.value);
    }
  }

  lemma KeysAreValid(rows: seq<Row>)
    requires forall i :: 0 <= i < |rows| ==> Wellformed(rows[i])
    ensures forall dim, key :: key in Keys(rows, dim) ==> ValidKey(dim, key)
  {
    forall dim, key | key in Keys(rows, dim) ensures ValidKey(dim, key) {
      KeyIsValid(rows, dim, key);
    }
  }

  /** The reader never rejects a report that the writer computed. */
  lemma ReportIsValid(rows: seq<Row>, conflicts: nat)
    requires forall i :: 0 <= i < |rows| ==> Wellformed(rows[i])
    ensures ValidReport(ReportOf(rows, conflicts))
  {
    hide Opaque, MonthFormat, Sum, Wellformed, Duration, Keys;
    SumIsValid(rows);
    KeysAreValid(rows);
  }

  /** A reader sees a report exactly when the writer is done and the snapshot is at most five
      minutes old, and then it is the report over the committed rows. */
  lemma ReadIsExact(run: seq<World>, i: nat, now: int)
    requires IsLedgerRun(run) && i < |run|
    requires forall k :: 0 <= k < |run[i].tables.rows| ==> Wellformed(run[i].tables.rows[k])
    ensures var s := run[i].snapshot;
      && (Read(s, now).Fresh? <==> s.Current? && 0 <= now - s.at <= 300)
      && (Read(s, now).Fresh? ==>
            Read(s, now).report == ReportOf(run[i].tables.rows, |run[i].tables.conflicts|) && !run[i].writing)
  {
    HoldsAt(run, i);
    ReportIsValid(run[i].tables.rows, |run[i].tables.conflicts|);
  }

  // ---------- The ledger ----------

  ghost predicate Recorded(saves: seq<World>, world: World) {
    saves != [] && IsLedgerRun(saves) && saves[|saves| - 1] == world
  }

  class OperationalMetricsLedger {
    const catalog: set<string>
    var rows: seq<Row>
    var conflicts: map<ConflictKey, Payload>
    var snapshot: Snapshot
    ghost var saves: seq<World>
    ghost var world: World

    ghost predicate Durable(writing: bool)
      reads this
    {
      Recorded(saves, world) && world == World(Tables(rows, conflicts), snapshot, writing)
    }

    ghost predicate Valid()
      reads this
    {
      Durable(false)
    }

    /** Opens the tables that crashed writers left, and publishes the report over them. */
    constructor (catalog: set<string>, rows: seq<Row>, conflicts: map<ConflictKey, Payload>, snapshot: Snapshot,
                 now: int, ghost history: seq<World>)
      requires history != [] && IsLedgerRun(history)
      requires history[|history| - 1].tables == Tables(rows, conflicts) && history[|history| - 1].snapshot == snapshot
      ensures Valid() && this.catalog == catalog && this.rows == rows && this.conflicts == conflicts
      ensures this.snapshot == Current(now, ReportOf(rows, |conflicts|))
    {
      this.catalog, this.rows, this.conflicts, this.snapshot := catalog, rows, conflicts, snapshot;
      saves, world := history, history[|history| - 1];
      new;
      Take(Leave);
      Take(Mark(now));
      this.snapshot := InProgress(now);
      Refresh(now);
    }

    ghost method Take(s: Step)
      requires Recorded(saves, world) && Enabled(s, world)
      modifies this`saves, this`world
      ensures Recorded(saves, world) && world == Effect(s, old(world))
    {
      Runs.Continue(Init, Next, saves, Effect(s, world));
      world := Effect(s, world);
      saves := saves + [world];
    }

    /** Publishes the report over the committed rows. */
    method Refresh(now: int)
      requires Durable(true)
      modifies this`snapshot, this`saves, this`world
      ensures Valid() && snapshot == Current(now, ReportOf(rows, |conflicts|))
    {
      hide Recorded, ReportOf;
      var report := ReportFromRows(rows, |conflicts|);
      Take(Publish(now));
      snapshot := Current(now, report);
    }

    /** Notes every matching row once. */
    method NoteConflicts(matches: seq<Row>, row: Row) returns (noted: map<ConflictKey, Payload>)
      ensures noted == Noted(conflicts, matches, row)
    {
      noted := conflicts;
      for i := 0 to |matches|
        invariant noted == Noted(conflicts, matches[..i], row)
      {
        assert matches[..i + 1][..i] == matches[..i];
        if KeyFor(matches[i], row) !in noted {
          noted := noted[KeyFor(matches[i], row) := matches[i].payload];
        }
      }
      assert matches[..|matches|] == matches;
    }

    /** Reconciles one observation; whatever comes of it, the snapshot is the report over the
        rows afterwards. An observation that is refused touches nothing. */
    method Reconcile(o: Observation, marked: int, now: int) returns (outcome: Outcome)
      requires Valid()
      modifies this
      ensures Valid()
      ensures !Acceptable(o) ==> outcome == Refused && world == old(world)
      ensures Acceptable(o) ==>
        && (Tables(rows, conflicts), outcome) == Reconciled(Tables(old(rows), old(conflicts)), RowOf(catalog, o))
        && snapshot == Current(now, ReportOf(rows, |conflicts|))
    {
      hide Recorded, ReportOf, Acceptable;
      if !Acceptable(o) {
        return Refused;
      }
      var row := RowOf(catalog, o);
      Take(Mark(marked));
      snapshot := InProgress(marked);
      var matches := Matches(rows, row);
      if matches != [] {
        if AllSamePayload(matches, row) {
          Refresh(now);
          return Replayed;
        }
        var noted := NoteConflicts(matches, row);
        Take(Note(row));
        conflicts := noted;
        Refresh(now);
        return Conflicted;
      }
      Take(Append(row));
      rows := rows + [row];
      Refresh(now);
      return Added;
    }

    /** Reads the snapshot file only. */
    method ReadSnapshot(now: int) returns (status: Status)
      ensures status == Read(snapshot, now)
    {
      if snapshot.Missing? {
        return Nothing;
      }
      if snapshot.InProgress? {
        return WriterInProgress;
      }
      var age := now - snapshot.at;
      if age < 0 {
        return ClockPolicy;
      }
      if age > SNAPSHOT_MAX_AGE {
        return Expired;
      }
      return if ValidReport(snapshot.report) then Fresh(snapshot.report) else Invalid;
    }
  }
}

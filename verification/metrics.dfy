/** The operational metrics ledger: deduplicated append-only rows, recorded conflicts, and the
    cached report. The ghost field `saves` is the run so far, one entry per durable write. */
module Metrics {
  import opened Wrappers
  import opened Texts
  import opened MetricsModel

  // ---------- Observations ----------

  datatype Observation = Observation(
    eventId: string, requestId: string, episodeId: string, worker: string, experiment: bool, billing: Billing,
    observedAt: Option<When>, input: Option<int>, cached: Option<int>, output: Option<int>, reasoning: Option<int>,
    quota: Option<int>, latency: Option<real>, queueWait: Option<real>, exposure: Option<int>, money: Option<int>,
    missingMetrics: bool, model: Option<string>)

  predicate Alphanumeric(c: char) {
    'a' <= c <= 'z' || 'A' <= c <= 'Z' || IsDigit(c)
  }

  /** A bounded opaque identifier. */
  predicate Opaque(s: string) {
    && 1 <= |s| <= 128 && Alphanumeric(s[0])
    && forall i :: 0 < i < |s| ==> Alphanumeric(s[i]) || s[i] in {'.', '_', ':', '-'}
  }

  predicate Count(n: Option<int>) {
    n.Some? ==> n.value >= 0
  }

  predicate Duration(t: Option<real>) {
    t.Some? ==> t.value >= 0.0
  }

  /** What `reconcile` accepts. Money is real exactly for authenticated billing, and missing
      measurements must be declared. */
  predicate Acceptable(o: Observation) {
    && Opaque(o.eventId) && Opaque(o.requestId) && Opaque(o.episodeId) && Opaque(o.worker)
    && Count(o.input) && Count(o.cached) && Count(o.output) && Count(o.reasoning) && Count(o.quota)
    && Duration(o.latency) && Duration(o.queueWait) && Count(o.exposure) && Count(o.money)
    && (o.money.Some? <==> o.billing.Authenticated?)
    && (o.missingMetrics || o.input.Some? || o.cached.Some? || o.output.Some? || o.reasoning.Some? || o.quota.Some? || o.latency.Some?)
  }

  function Natural(n: Option<int>): Option<nat>
    requires Count(n)
  {
    if n.Some? then Some(n.value) else None
  }

  /** The row of an observation; a model outside the catalog is dropped. */
  function RowOf(catalog: set<string>, o: Observation): Row
    requires Acceptable(o)
  {
    Row(o.requestId, o.eventId, o.worker, o.observedAt,
        Payload(o.episodeId, o.experiment, if o.model.Some? && o.model.value in catalog then o.model else None,
                Natural(o.input), Natural(o.cached), Natural(o.output), Natural(o.reasoning),
                o.latency, o.queueWait, Natural(o.exposure), Natural(o.quota), o.billing, Natural(o.money)))
  }

  /** By its ASCII code. */
  predicate LetterOrDigit(code: int) {
    48 <= code < 58 || 65 <= code < 91 || 97 <= code < 123
  }

  /** Opaque identifiers are the texts of 1 to 128 letters, digits, full stops, underscores,
      colons and hyphens that begin with a letter or digit. */
  lemma OpaqueIs(s: string)
    ensures Opaque(s) <==>
      && s != "" && |s| < 129 && LetterOrDigit(s[0] as int)
      && forall i :: 0 <= i < |s| ==>
           LetterOrDigit(s[i] as int) || s[i] == '.' || s[i] == '_' || s[i] == ':' || s[i] == '-'
  {
  }

  /** Exactly which observations are accepted. */
  lemma AcceptedExactly(o: Observation)
    ensures Acceptable(o) <==>
      && Opaque(o.eventId) && Opaque(o.requestId) && Opaque(o.episodeId) && Opaque(o.worker)
      && (o.input != None ==> o.input.value >= 0) && (o.cached != None ==> o.cached.value >= 0)
      && (o.output != None ==> o.output.value >= 0) && (o.reasoning != None ==> o.reasoning.value >= 0)
      && (o.quota != None ==> o.quota.value >= 0) && (o.exposure != None ==> o.exposure.value >= 0)
      && (o.latency != None ==> o.latency.value >= 0.0) && (o.queueWait != None ==> o.queueWait.value >= 0.0)
      && (o.billing == Authenticated ==> o.money != None && o.money.value >= 0)
      && (o.billing != Authenticated ==> o.money == None)
      && (!o.missingMetrics ==>
            !(o.input == None && o.cached == None && o.output == None && o.reasoning == None && o.quota == None
              && o.latency == None))
  {
    hide Opaque;
  }

  /** The row holds the observation, field by field; only a model outside the catalog is lost. */
  lemma RowHolds(catalog: set<string>, o: Observation)
    requires Acceptable(o)
    ensures var row := RowOf(catalog, o);
      var p := row.payload;
      && row.requestId == o.requestId && row.eventId == o.eventId && row.worker == o.worker && row.when == o.observedAt
      && p.episode == o.episodeId && p.experiment == o.experiment && p.billing == o.billing
      && p.latency == o.latency && p.queueWait == o.queueWait
      && Same(p.input, o.input) && Same(p.cached, o.cached) && Same(p.output, o.output) && Same(p.reasoning, o.reasoning)
      && Same(p.exposure, o.exposure) && Same(p.quota, o.quota) && Same(p.money, o.money)
      && p.model == if o.model != None && o.model.value in catalog then o.model else None
  {
  }

  predicate Same(n: Option<nat>, m: Option<int>) {
    (n == None <==> m == None) && (n != None ==> m != None && n.value == m.value)
  }

  // ---------- The tables ----------

  datatype IdentityKind = RequestIdentity | EventIdentity

  datatype ConflictKey = ConflictKey(kind: IdentityKind, value: string, conflicting: Payload)

  datatype Tables = Tables(rows: seq<Row>, conflicts: map<ConflictKey, Payload>)

  datatype Outcome = Added | Replayed | Conflicted | Refused

  predicate SharesIdentity(a: Row, b: Row) {
    a.requestId == b.requestId || a.eventId == b.eventId
  }

  /** The rows with the request id or the event id of this one. */
  function Matches(rows: seq<Row>, row: Row): seq<Row> {
    if rows == [] then []
    else Matches(rows[..|rows| - 1], row) + if SharesIdentity(rows[|rows| - 1], row) then [rows[|rows| - 1]] else []
  }

  predicate AllSamePayload(matches: seq<Row>, row: Row) {
    forall i :: 0 <= i < |matches| ==> matches[i].payload == row.payload
  }

  function KeyFor(item: Row, row: Row): ConflictKey {
    if item.requestId == row.requestId then ConflictKey(RequestIdentity, row.requestId, row.payload)
    else ConflictKey(EventIdentity, row.eventId, row.payload)
  }

  /** `INSERT OR IGNORE` for every matching row. */
  function Noted(conflicts: map<ConflictKey, Payload>, matches: seq<Row>, row: Row): map<ConflictKey, Payload> {
    if matches == [] then conflicts
    else
      var before := Noted(conflicts, matches[..|matches| - 1], row);
      var item := matches[|matches| - 1];
      if KeyFor(item, row) in before then before else before[KeyFor(item, row) := item.payload]
  }

  function Reconciled(t: Tables, row: Row): (Tables, Outcome) {
    var matches := Matches(t.rows, row);
    if matches == [] then (t.(rows := t.rows + [row]), Added)
    else if AllSamePayload(matches, row) then (t, Replayed)
    else (t.(conflicts := Noted(t.conflicts, matches, row)), Conflicted)
  }

  function CurrentReport(t: Tables): Report {
    ReportOf(t.rows, |t.conflicts|)
  }

  ghost predicate Identified(rows: seq<Row>) {
    forall i, j :: 0 <= i < j < |rows| ==> !SharesIdentity(rows[i], rows[j])
  }

  lemma {:induction false} MatchesAre(rows: seq<Row>, row: Row)
    ensures forall m :: m in Matches(rows, row) <==> m in rows && SharesIdentity(m, row)
    ensures Matches(rows, row) == [] <==> forall i :: 0 <= i < |rows| ==> !SharesIdentity(rows[i], row)
  {
    if rows != [] {
      MatchesAre(rows[..|rows| - 1], row);
      assert rows == rows[..|rows| - 1] + [rows[|rows| - 1]];
      if Matches(rows, row) == [] {
        assert forall i :: 0 <= i < |rows| - 1 ==> rows[i] == rows[..|rows| - 1][i];
      } else {
        assert Matches(rows, row)[0] in Matches(rows, row);
      }
    }
  }

  /** The store is an append-only map: a row is added exactly when neither of its identities is
      known, and then both become unique keys of it; otherwise no row changes. */
  lemma ReconcileAppends(t: Tables, row: Row)
    requires Identified(t.rows)
    ensures var (t', outcome) := Reconciled(t, row);
      && Identified(t'.rows) && t.rows <= t'.rows
      && (outcome == Added <==> forall i :: 0 <= i < |t.rows| ==> !SharesIdentity(t.rows[i], row))
      && (outcome == Added ==> t'.rows == t.rows + [row] && t'.conflicts == t.conflicts)
      && (outcome != Added ==> t'.rows == t.rows)
      && (outcome != Conflicted ==> t'.conflicts == t.conflicts)
  {
    MatchesAre(t.rows, row);
  }

  /** What becomes of an observation: added when nobody has its identities, a replay when all who
      have one say the same, a conflict as soon as one of them says something else. */
  lemma ReconcileOutcome(t: Tables, row: Row)
    ensures var outcome := Reconciled(t, row).1;
      && (outcome == Added <==> forall m :: m in t.rows ==> m.requestId != row.requestId && m.eventId != row.eventId)
      && (outcome == Conflicted <==>
            exists m :: m in t.rows && (m.requestId == row.requestId || m.eventId == row.eventId) && m.payload != row.payload)
      && outcome in {Added, Replayed, Conflicted}
  {
    MatchesAre(t.rows, row);
    var matches := Matches(t.rows, row);
    assert forall m :: m in t.rows && SharesIdentity(m, row) ==> m in matches;
    if m :| m in matches && m.payload != row.payload {
      var i :| 0 <= i < |matches| && matches[i] == m;
    }
    if matches != [] {
      assert matches[0] in matches;
    }
  }

  /** What a conflict notes: for every row with a common identity one entry, under the request id
      if that is common and under the event id otherwise; earlier entries stay, and there are no
      others. */
  lemma ConflictsNoted(t: Tables, row: Row)
    requires Reconciled(t, row).1 == Conflicted
    ensures var noted := Reconciled(t, row).0.conflicts;
      && (forall k :: k in t.conflicts ==> k in noted && noted[k] == t.conflicts[k])
      && (forall m :: m in t.rows && m.requestId == row.requestId ==>
            ConflictKey(RequestIdentity, row.requestId, row.payload) in noted)
      && (forall m :: m in t.rows && m.requestId != row.requestId && m.eventId == row.eventId ==>
            ConflictKey(EventIdentity, row.eventId, row.payload) in noted)
      && (forall k :: k in noted && k !in t.conflicts ==>
            exists m :: m in t.rows && noted[k] == m.payload
              && ((m.requestId == row.requestId && k == ConflictKey(RequestIdentity, row.requestId, row.payload))
                  || (m.requestId != row.requestId && m.eventId == row.eventId
                      && k == ConflictKey(EventIdentity, row.eventId, row.payload))))
  {
    MatchesAre(t.rows, row);
    NotedEntries(t.conflicts, Matches(t.rows, row), row);
  }

  lemma {:induction false} NotedEntries(conflicts: map<ConflictKey, Payload>, matches: seq<Row>, row: Row)
    ensures var noted := Noted(conflicts, matches, row);
      && (forall k :: k in conflicts ==> k in noted && noted[k] == conflicts[k])
      && (forall m :: m in matches ==> KeyFor(m, row) in noted)
      && (forall k :: k in noted && k !in conflicts ==>
            exists m :: m in matches && noted[k] == m.payload && k == KeyFor(m, row))
    decreases |matches|
  {
    if matches != [] {
      var rest, last := matches[..|matches| - 1], matches[|matches| - 1];
      NotedEntries(conflicts, rest, row);
      assert matches == rest + [last];
    }
  }

  /** An exact replay is recognised whatever worker and time it carries, also after any other
      rows were added. */
  lemma ReplayChangesNothing(t: Tables, row: Row, again: Row, more: seq<Row>)
    requires Reconciled(t, row).1 == Added && Identified(t.rows + [row] + more)
    requires again.requestId == row.requestId && again.eventId == row.eventId && again.payload == row.payload
    ensures var later := t.(rows := t.rows + [row] + more); Reconciled(later, again) == (later, Replayed)
  {
    var rows := t.rows + [row] + more;
    MatchesAre(rows, again);
    assert rows[|t.rows|] == row && row in rows;
    assert row in Matches(rows, again);
    forall k | 0 <= k < |Matches(rows, again)| ensures Matches(rows, again)[k].payload == again.payload {
      var m := Matches(rows, again)[k];
      assert m in Matches(rows, again);
      var i :| 0 <= i < |rows| && rows[i] == m;
      assert i == |t.rows|;
    }
  }

  lemma MatchesMore(rows: seq<Row>, x: Row, row: Row)
    ensures Matches(rows + [x], row) == Matches(rows, row) + if SharesIdentity(x, row) then [x] else []
  {
    assert (rows + [x])[..|rows|] == rows;
  }

  /** Conflicts of rows with different identities are noted under different keys. */
  lemma {:induction false} NotedKeys(conflicts: map<ConflictKey, Payload>, matches: seq<Row>, row: Row)
    ensures conflicts.Keys <= Noted(conflicts, matches, row).Keys
    ensures forall k :: k in conflicts ==> Noted(conflicts, matches, row)[k] == conflicts[k]
    ensures forall k :: k in Noted(conflicts, matches, row) && k !in conflicts ==>
      exists i :: 0 <= i < |matches| && k == KeyFor(matches[i], row)
    decreases |matches|
  {
    if matches != [] {
      NotedKeys(conflicts, matches[..|matches| - 1], row);
    }
  }

  lemma {:induction false} NotedCommutes(conflicts: map<ConflictKey, Payload>, m: seq<Row>, a: Row, n: seq<Row>, b: Row)
    requires !SharesIdentity(a, b)
    ensures Noted(Noted(conflicts, m, a), n, b) == Noted(Noted(conflicts, n, b), m, a)
    decreases |m| + |n|
  {
    if m != [] && n != [] {
      var m', n' := m[..|m| - 1], n[..|n| - 1];
      NotedCommutes(conflicts, m', a, n', b);
      NotedCommutes(conflicts, m, a, n', b);
      NotedCommutes(conflicts, m', a, n, b);
      assert KeyFor(m[|m| - 1], a) != KeyFor(n[|n| - 1], b);
    }
  }

  function Fresh(t: Tables, row: Row): seq<Row> {
    if Matches(t.rows, row) == [] then [row] else []
  }

  function ConflictsAfter(t: Tables, conflicts: map<ConflictKey, Payload>, row: Row): map<ConflictKey, Payload> {
    if Reconciled(t, row).1 == Conflicted then Noted(conflicts, Matches(t.rows, row), row) else conflicts
  }

  /** A row with other identities does not change what becomes of an observation. */
  lemma ReconcileTwice(t: Tables, a: Row, b: Row)
    requires !SharesIdentity(a, b)
    ensures var after := Reconciled(Reconciled(t, a).0, b);
      && after.1 == Reconciled(t, b).1
      && after.0.rows == t.rows + Fresh(t, a) + Fresh(t, b)
      && after.0.conflicts == ConflictsAfter(t, ConflictsAfter(t, t.conflicts, a), b)
  {
    hide Noted, AllSamePayload;
    MatchesMore(t.rows, a, b);
    assert Matches(t.rows, b) + [] == Matches(t.rows, b);
  }

  lemma ConflictsCommute(t: Tables, a: Row, b: Row)
    requires !SharesIdentity(a, b)
    ensures ConflictsAfter(t, ConflictsAfter(t, t.conflicts, a), b) == ConflictsAfter(t, ConflictsAfter(t, t.conflicts, b), a)
  {
    hide Noted, AllSamePayload, Matches;
    NotedCommutes(t.conflicts, Matches(t.rows, a), a, Matches(t.rows, b), b);
  }

  /** Observations with different request and event ids commute: the same outcomes, and the
      same report, in either order. */
  lemma DisjointCommute(t: Tables, a: Row, b: Row)
    requires !SharesIdentity(a, b)
    ensures var (ta, ra) := Reconciled(t, a);
      var (tb, rb) := Reconciled(t, b);
      && Reconciled(ta, b).1 == rb && Reconciled(tb, a).1 == ra
      && CurrentReport(Reconciled(ta, b).0) == CurrentReport(Reconciled(tb, a).0)
  {
    hide ReportOf, Reconciled, ConflictsAfter, Fresh, Matches;
    ReconcileTwice(t, a, b);
    ReconcileTwice(t, b, a);
    ConflictsCommute(t, a, b);
    assert multiset(t.rows + Fresh(t, a) + Fresh(t, b)) == multiset(t.rows + Fresh(t, b) + Fresh(t, a));
    ReportIgnoresOrder(t.rows + Fresh(t, a) + Fresh(t, b), t.rows + Fresh(t, b) + Fresh(t, a),
                       |ConflictsAfter(t, ConflictsAfter(t, t.conflicts, a), b)|);
  }
}

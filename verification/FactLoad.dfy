/** Fact loading with as-of lookup and stopgap rows
(_resolve_risk_snapshot_key and fact_upsert in layer3_warehouse.py). */
module FactLoad {
  import opened Model
  import opened FiniteSets
  import opened Histories
  import opened ClientCdc
  import opened Database
  import opened FactIntegrity
  import opened BaselineRuns

  /** One row of the staging table of a fact. */
  datatype FactRow = FactRow(id: FactId, client: Client, day: int, measures: string)

  /** A client with any row that is not a stopgap. */
  predicate HasHistory(h: History) {
    exists l | l in h :: 0 <= l
  }

  /** COALESCE(MIN(source_lsn), 0) - 1. */
  function StopgapLsn(h: History): int {
    if h == map[] then -1 else Min(h.Keys) - 1
  }

  /** The narrowest window around an instant, not current. */
  function Stopgap(key: int, t: int): Version {
    Version(key, UNKNOWN, t, t + 1, false, false)
  }

  function WithStopgap(h: History, key: int, t: int): History {
    Append(h, StopgapLsn(h), Stopgap(key, t))
  }

  function Allocate(db: Db, c: Client, t: int): Db {
    db.(
      snapshots := db.snapshots[c := WithStopgap(HistoryOf(db, c), db.nextKey, t)],
      nextKey := db.nextKey + 1)
  }

  /** INSERT ... ON CONFLICT (pk) DO UPDATE of the fact row. */
  function Upsert(db: Db, row: FactRow, key: int): Db {
    db.(facts := db.facts[row.id := Fact(row.client, row.day, key, row.measures)])
  }

  /** One staged row loaded: onto any row the lookup may return, or onto a new stopgap when
      there is none and the client has no history. */
  ghost predicate Loaded(db: Db, row: FactRow, after: Db) {
    var h, t := HistoryOf(db, row.client), Midnight(row.day);
    if Covering(h, t) != {} then
      exists l :: l in Covering(h, t) && after == Upsert(db, row, h[l].key)
    else
      !HasHistory(h) && after == Upsert(Allocate(db, row.client, t), row, db.nextKey)
  }

  /** A miss for a client with history: the load raises. */
  predicate Unresolvable(db: Db, row: FactRow) {
    HasHistory(HistoryOf(db, row.client)) && Covering(HistoryOf(db, row.client), Midnight(row.day)) == {}
  }

  /** The tables after each staged row. */
  ghost predicate IsFactLoad(db: Db, rows: seq<FactRow>, trace: seq<Db>) {
    && |trace| == |rows| + 1 && trace[0] == db
    && forall i {:trigger LoadedAt(rows, trace, i)} | 0 <= i < |rows| :: LoadedAt(rows, trace, i)
  }

  ghost predicate LoadedAt(rows: seq<FactRow>, trace: seq<Db>, i: nat)
    requires i < |rows| && |trace| == |rows| + 1
  {
    Loaded(trace[i], rows[i], trace[i + 1])
  }

  lemma LoadOneMore(db: Db, rows: seq<FactRow>, trace: seq<Db>, n: nat, after: Db)
    requires n < |rows| && IsFactLoad(db, rows[..n], trace) && Loaded(trace[n], rows[n], after)
    ensures IsFactLoad(db, rows[..n + 1], trace + [after])
  {
    var more, longer := rows[..n + 1], trace + [after];
    forall i | 0 <= i < n + 1
      ensures LoadedAt(more, longer, i)
    {
      if i < n {
        assert LoadedAt(rows[..n], trace, i);
      }
    }
  }

  ghost predicate AllDisjoint(db: Db) {
    forall c {:trigger HistoryOf(db, c)} :: Disjoint(HistoryOf(db, c))
  }

  /** The lsn drawn for a stopgap is below every row there is, and negative where the client has
      no history. */
  lemma StopgapLsnIsFree(h: History)
    ensures forall l | l in h :: StopgapLsn(h) < l
    ensures !HasHistory(h) ==> StopgapLsn(h) < 0
  {
  }

  /** A new stopgap answers exactly its own instant and changes no other answer. */
  lemma StopgapAnswers(h: History, key: int, t: int, x: int)
    requires Covering(h, t) == {}
    ensures Covering(WithStopgap(h, key, t), x) == if x == t then {StopgapLsn(h)} else Covering(h, x)
  {
  }

  lemma StopgapKeepsDisjoint(h: History, key: int, t: int)
    requires Disjoint(h) && Covering(h, t) == {}
    ensures Disjoint(WithStopgap(h, key, t))
  {
    forall l, m, x | l in Covering(WithStopgap(h, key, t), x) && m in Covering(WithStopgap(h, key, t), x)
      ensures l == m
    {
      StopgapAnswers(h, key, t, x);
    }
  }

  /** A row a load adds is a stopgap: its lsn is negative and one below the lowest there was, its
      values are unknown, it is neither current nor deleted, its key is fresh, and it answers
      exactly the midnight it was made for. */
  lemma LoadAddsOnlyStopgaps(db: Db, row: FactRow, after: Db, c: Client, l: int)
    requires Loaded(db, row, after) && l in HistoryOf(after, c) && l !in HistoryOf(db, c)
    ensures c == row.client && l < 0 && (forall m | m in HistoryOf(db, c) :: l < m)
    ensures if HistoryOf(db, c) == map[] then l == -1 else l + 1 in HistoryOf(db, c)
    ensures var t := row.day * 86_400_000_000;
      HistoryOf(after, c)[l] == Version(db.nextKey, Attributes("unknown", 0, "unknown"), t, t + 1, false, false)
  {
  }

  /** What loading one staged row does: the fact gets its columns and the key of a row that covers the
      first instant of its day.  Where one did before, nothing else changes; where none did, one
      row is added.  No row is changed or lost. */
  lemma LoadOnTables(db: Db, row: FactRow, after: Db)
    requires Loaded(db, row, after)
    ensures after == db.(snapshots := after.snapshots, facts := after.facts, nextKey := after.nextKey)
    ensures var h, g, t := HistoryOf(db, row.client), HistoryOf(after, row.client), row.day * 86_400_000_000;
      exists l :: l in g && g[l].validFrom <= t < g[l].validTo
        && after.facts == db.facts[row.id := Fact(row.client, row.day, g[l].key, row.measures)]
        && if l in h then after == db.(facts := after.facts)
           else after.nextKey == db.nextKey + 1 && g.Keys == h.Keys + {l}
                && forall m | m in h :: m < 0 && !(h[m].validFrom <= t < h[m].validTo)
    ensures forall c, l | l in HistoryOf(db, c) :: l in HistoryOf(after, c) && HistoryOf(after, c)[l] == HistoryOf(db, c)[l]
    ensures forall c | c != row.client :: HistoryOf(after, c) == HistoryOf(db, c)
  {
    var h, t := HistoryOf(db, row.client), Midnight(row.day);
    if Covering(h, t) == {} {
      StopgapLsnIsFree(h);
      assert StopgapLsn(h) in HistoryOf(after, row.client);
      forall m | m in h
        ensures m < 0 && !Covers(h[m], t)
      {
        assert m !in Covering(h, t);
      }
    }
  }

  /** Windows of a loaded table stay disjoint. */
  lemma LoadKeepsDisjoint(db: Db, row: FactRow, after: Db)
    requires AllDisjoint(db) && Loaded(db, row, after)
    ensures AllDisjoint(after)
  {
    forall c
      ensures Disjoint(HistoryOf(after, c))
    {
      assert Disjoint(HistoryOf(db, c));
      if c == row.client && Covering(HistoryOf(db, c), Midnight(row.day)) == {} {
        StopgapKeepsDisjoint(HistoryOf(db, c), db.nextKey, Midnight(row.day));
      }
    }
  }

  /** The fact is on the one version of its client that covers midnight of its day. */
  ghost predicate OnAsOf(db: Db, row: FactRow) {
    var h := HistoryOf(db, row.client);
    && row.id in db.facts
    && exists l :: Covering(h, Midnight(row.day)) == {l}
         && db.facts[row.id] == Fact(row.client, row.day, h[l].key, row.measures)
  }

  lemma LoadedIsAsOf(db: Db, row: FactRow, after: Db)
    requires AllDisjoint(db) && Loaded(db, row, after)
    ensures OnAsOf(after, row)
  {
    var h, t := HistoryOf(db, row.client), Midnight(row.day);
    if Covering(h, t) != {} {
      var l :| l in Covering(h, t) && after == Upsert(db, row, h[l].key);
      assert Disjoint(h);
      forall m
        ensures m in Covering(h, t) <==> m == l
      {
      }
      assert Covering(HistoryOf(after, row.client), t) == {l};
    } else {
      StopgapAnswers(h, db.nextKey, t, t);
      StopgapLsnIsFree(h);
      assert Covering(HistoryOf(after, row.client), t) == {StopgapLsn(h)};
    }
  }

  lemma LoadKeepsAsOf(db: Db, row: FactRow, after: Db, done: FactRow)
    requires Loaded(db, row, after) && OnAsOf(db, done) && done.id != row.id
    ensures OnAsOf(after, done)
  {
  }

  ghost predicate DistinctIds(rows: seq<FactRow>) {
    forall i, j | 0 <= i < j < |rows| :: rows[i].id != rows[j].id
  }

  lemma {:induction false} RunKeepsDisjoint(db: Db, rows: seq<FactRow>, trace: seq<Db>, n: nat)
    requires IsFactLoad(db, rows, trace) && AllDisjoint(db) && n <= |rows|
    ensures AllDisjoint(trace[n])
  {
    if n > 0 {
      RunKeepsDisjoint(db, rows, trace, n - 1);
      assert LoadedAt(rows, trace, n - 1);
      LoadKeepsDisjoint(trace[n - 1], rows[n - 1], trace[n]);
    }
  }

  /** From disjoint windows, a run that does not raise leaves every staged row's fact on the
      unique version covering midnight of its day. */
  lemma {:induction false} FactLoadIsAsOf(db: Db, rows: seq<FactRow>, trace: seq<Db>, n: nat, i: nat)
    requires IsFactLoad(db, rows, trace) && AllDisjoint(db) && DistinctIds(rows) && i < n <= |rows|
    ensures OnAsOf(trace[n], rows[i])
  {
    assert LoadedAt(rows, trace, n - 1);
    if i == n - 1 {
      RunKeepsDisjoint(db, rows, trace, n - 1);
      LoadedIsAsOf(trace[n - 1], rows[n - 1], trace[n]);
    } else {
      FactLoadIsAsOf(db, rows, trace, n - 1, i);
      LoadKeepsAsOf(trace[n - 1], rows[n - 1], trace[n], rows[i]);
    }
  }

  /** Loading a row whose fact is already where it belongs changes nothing. */
  lemma ReloadedRowIsIdle(db: Db, row: FactRow, after: Db)
    requires OnAsOf(db, row) && Loaded(db, row, after)
    ensures after == db
  {
  }

  /** A second run over the same staged rows, in whatever order they come this time, changes no
      table and draws no surrogate key. */
  lemma {:induction false} SecondLoadIsIdle(db: Db, rows: seq<FactRow>, trace: seq<Db>,
                                            again: seq<FactRow>, second: seq<Db>, n: nat)
    requires IsFactLoad(db, rows, trace) && AllDisjoint(db) && DistinctIds(rows)
    requires forall r | r in again :: r in rows
    requires IsFactLoad(trace[|rows|], again, second) && n <= |again|
    ensures second[n] == trace[|rows|]
  {
    if n > 0 {
      SecondLoadIsIdle(db, rows, trace, again, second, n - 1);
      assert again[n - 1] in rows;
      var i :| 0 <= i < |rows| && rows[i] == again[n - 1];
      FactLoadIsAsOf(db, rows, trace, |rows|, i);
      assert LoadedAt(again, second, n - 1);
      ReloadedRowIsIdle(second[n - 1], again[n - 1], second[n]);
    }
  }

  /** Loading does not touch a client that has history. */
  lemma LoadKeepsHistories(db: Db, row: FactRow, after: Db, c: Client)
    requires Loaded(db, row, after)
    ensures HasHistory(HistoryOf(db, c)) ==> HistoryOf(after, c) == HistoryOf(db, c)
    ensures HasHistory(HistoryOf(after, c)) == HasHistory(HistoryOf(db, c))
    ensures Unresolvable(after, row) == Unresolvable(db, row)
  {
  }

  /** Whether a row raises is decided by the tables before the run: loading others does not
      change it. */
  lemma {:induction false} RaisesAsBefore(db: Db, rows: seq<FactRow>, trace: seq<Db>, n: nat, row: FactRow)
    requires IsFactLoad(db, rows, trace) && n <= |rows|
    ensures Unresolvable(trace[n], row) == Unresolvable(db, row)
  {
    if n > 0 {
      RaisesAsBefore(db, rows, trace, n - 1, row);
      assert LoadedAt(rows, trace, n - 1);
      LoadKeepsHistories(trace[n - 1], rows[n - 1], trace[n], row.client);
    }
  }

  /** Loading keeps every reference sound. */
  lemma LoadKeepsIntegrity(db: Db, row: FactRow, after: Db)
    requires KeysUnique(db) && FactsAnchored(db) && Loaded(db, row, after)
    ensures KeysUnique(after) && FactsAnchored(after)
  {
    var h, t := HistoryOf(db, row.client), Midnight(row.day);
    var mid := if Covering(h, t) == {} then Allocate(db, row.client, t) else db;
    StopgapLsnIsFree(h);
    if Covering(h, t) == {} {
      AllocationKeepsIntegrity(db, row.client, t);
      StopgapAnswers(h, db.nextKey, t, t);
    }
    SameTablesSameKeys(mid, after);
    var g := HistoryOf(mid, row.client);
    var l :| l in Covering(g, t) && g[l].key == after.facts[row.id].snapshotKey;
    forall id | id in after.facts
      ensures Anchored(after, after.facts[id])
    {
      if id == row.id {
        assert AnchoredAt(after, after.facts[id], l);
      } else {
        assert Anchored(mid, mid.facts[id]);
        var m :| AnchoredAt(mid, mid.facts[id], m);
        assert AnchoredAt(after, after.facts[id], m);
      }
    }
  }

  lemma AllocationKeepsIntegrity(db: Db, c: Client, t: int)
    requires KeysUnique(db) && FactsAnchored(db)
    ensures KeysUnique(Allocate(db, c, t)) && FactsAnchored(Allocate(db, c, t))
  {
    var after := Allocate(db, c, t);
    var s := ClientState(HistoryOf(after, c), WatermarkOf(db, c), after.nextKey);
    StopgapLsnIsFree(HistoryOf(db, c));
    InjectKeepsKeys(db, c, s, StopgapLsn(HistoryOf(db, c)));
    forall d, l, k | IsRow(after, d, l, k)
      ensures IsRow(Inject(db, c, s), d, l, k)
    {
    }
    forall d, l | l in HistoryOf(db, d)
      ensures Persists(db, after, d, l)
    {
    }
    PersistingRowsKeepAnchors(db, after);
  }
}

/** The warehouse tables and the procedures that update them in place
(sql/03_cdc_apply.sql, sql/04_backfill_reset.sql, layer3_warehouse.py, reload.py). */
module Warehouse {
  import opened Model
  import opened FiniteSets
  import opened Histories
  import opened ClientCdc
  import opened Lists
  import opened ClientReload
  import opened Database
  import opened StreamRuns
  import opened FactIntegrity
  import opened ReloadSteps
  import opened ReloadRuns
  import opened ReloadCount
  import opened BaselineSeed
  import opened BaselineRuns
  import opened SeedTables
  import opened FactLoad

  /** The lookup may return any row that covers t, and returns none only if none does. */
  ghost predicate Resolves(h: History, t: int, key: Option<int>) {
    match key
    case None => Covering(h, t) == {}
    case Some(k) => exists l :: l in Covering(h, t) && h[l].key == k
  }

  function RedirectTables(facts: map<FactId, Fact>, tables: set<FactTable>, keys: set<int>, target: int): map<FactId, Fact> {
    map id | id in facts ::
      if id.table in tables && facts[id].snapshotKey in keys then facts[id].(snapshotKey := target) else facts[id]
  }

  lemma MembersOfBoth<T>(a: seq<T>, b: seq<T>)
    ensures forall x :: x in a + b <==> x in a || x in b
  {
  }

  function TablesIn(rows: seq<(FactId, int)>): set<FactTable> {
    set r | r in rows :: r.0.table
  }

  lemma TablesOfParked(facts: map<FactId, Fact>, parked: set<FactId>, rows: seq<(FactId, int)>)
    requires parked <= facts.Keys
    requires forall r :: r in rows <==> r.0 in parked && r.1 == facts[r.0].day
    ensures forall id | id in parked :: id.table in TablesIn(rows)
  {
    forall id | id in parked
      ensures id.table in TablesIn(rows)
    {
      assert (id, facts[id].day) in rows;
    }
  }

  function ParkedIds(rows: seq<(FactId, int)>): set<FactId> {
    set r | r in rows :: r.0
  }

  lemma ParkedIdsAre(facts: map<FactId, Fact>, parked: set<FactId>, rows: seq<(FactId, int)>)
    requires parked <= facts.Keys
    requires forall r :: r in rows <==> r.0 in parked && r.1 == facts[r.0].day
    ensures ParkedIds(rows) == parked
  {
    forall id | id in parked
      ensures id in ParkedIds(rows)
    {
      assert (id, facts[id].day) in rows;
    }
  }

  /** One more parked fact looked up. */
  lemma OneMoreResolved(start: Db, before: Db, c: Client, rows: seq<(FactId, int)>, i: nat, key: int)
    requires i < |rows| && rows[i].0 in start.facts && rows[i].1 == start.facts[rows[i].0].day
    requires Reresolved(start, c, ParkedIds(rows[..i]), before)
    requires Resolves(HistoryOf(before, c), Midnight(rows[i].1), Some(key))
    ensures var id := rows[i].0;
      id in before.facts
      && Reresolved(start, c, ParkedIds(rows[..i + 1]),
           before.(facts := before.facts[id := before.facts[id].(snapshotKey := key)]))
  {
    var id := rows[i].0;
    var after := before.(facts := before.facts[id := before.facts[id].(snapshotKey := key)]);
    assert ParkedIds(rows[..i + 1]) == ParkedIds(rows[..i]) + {id} by {
      assert rows[..i + 1] == rows[..i] + [rows[i]];
    }
    var l :| l in Covering(HistoryOf(before, c), Midnight(rows[i].1)) && HistoryOf(before, c)[l].key == key;
    assert HistoryOf(before, c) == HistoryOf(start, c);
    forall x | x in start.facts && x in ParkedIds(rows[..i + 1])
      ensures MovedTo(start, c, start.facts[x], after.facts[x])
    {
      if x == id {
        assert l in Covering(HistoryOf(start, c), Midnight(start.facts[x].day));
      } else {
        assert MovedTo(start, c, start.facts[x], before.facts[x]);
      }
    }
  }

  /** What seeding a list of clients has come to. */
  ghost predicate SeededSoFar(start: Db, now: Db, done: seq<(Client, Attributes)>, seeded: nat) {
    now == SeedEach(start, done) && seeded == SeedCount(start, done)
  }

  lemma OneMoreSeeded(start: Db, now: Db, after: Db, done: seq<(Client, Attributes)>, seeded: nat,
                      r: (Client, Attributes), newly: bool)
    requires SeededSoFar(start, now, done, seeded) && after == SeedClient(now, r.0, r.1)
    requires newly <==> forall l | l in HistoryOf(now, r.0) :: l < 0
    ensures SeededSoFar(start, after, done + [r], seeded + if newly then 1 else 0)
  {
    assert DropLast(done + [r]) == done && Last(done + [r]) == r;
  }

  /** What seeding the first n profile rows has come to. */
  ghost predicate ProfilesSeeded(start: Db, now: Db, profile: seq<(Client, Attributes)>, excluded: set<Client>, n: nat,
                                 seeded: nat) {
    n <= |profile| && SeededSoFar(start, now, Eligible(profile[..n], excluded), seeded)
  }

  /** One profile row more, seeded or excluded. */
  lemma ProfileSeeded(start: Db, now: Db, after: Db, profile: seq<(Client, Attributes)>, excluded: set<Client>, n: nat,
                      seeded: nat, newly: bool)
    requires n < |profile| && ProfilesSeeded(start, now, profile, excluded, n, seeded)
    requires var (c, attrs) := profile[n];
      if c in excluded then after == now
      else after == SeedClient(now, c, attrs)
    requires newly <==> profile[n].0 !in excluded && forall l | l in HistoryOf(now, profile[n].0) :: l < 0
    ensures ProfilesSeeded(start, after, profile, excluded, n + 1, seeded + if newly then 1 else 0)
  {
    var done := Eligible(profile[..n], excluded);
    OneMoreEligible(profile, excluded, n);
    if profile[n].0 in excluded {
      assert done + [] == done;
    } else {
      OneMoreSeeded(start, now, after, done, seeded, profile[n], newly);
    }
  }

  lemma ProfilesKeepSeedable(start: Db, now: Db, profile: seq<(Client, Attributes)>, excluded: set<Client>, n: nat, seeded: nat)
    requires ProfilesSeeded(start, now, profile, excluded, n, seeded)
    ensures Seedable(start) ==> Seedable(now)
  {
    SeededKeepsSeedable(start, now, Eligible(profile[..n], excluded), seeded);
  }

  lemma AllProfilesSeeded(start: Db, now: Db, profile: seq<(Client, Attributes)>, excluded: set<Client>, seeded: nat)
    requires ProfilesSeeded(start, now, profile, excluded, |profile|, seeded)
    ensures SeededSoFar(start, now, Eligible(profile, excluded), seeded)
  {
    assert profile[..|profile|] == profile;
  }

  lemma SeededKeepsSeedable(start: Db, now: Db, done: seq<(Client, Attributes)>, seeded: nat)
    requires SeededSoFar(start, now, done, seeded)
    ensures Seedable(start) ==> Seedable(now)
  {
    if Seedable(start) {
      SeedEachKeepsSeedable(start, done);
    }
  }

  lemma OneMoreEligible(profile: seq<(Client, Attributes)>, excluded: set<Client>, i: nat)
    requires i < |profile|
    ensures Eligible(profile[..i + 1], excluded) ==
      Eligible(profile[..i], excluded) + if profile[i].0 in excluded then [] else [profile[i]]
  {
    assert DropLast(profile[..i + 1]) == profile[..i] && Last(profile[..i + 1]) == profile[i];
  }

  /** The statements of the reset, taken together. */
  lemma ResetDone(db: Db, after: Db, c: Client, from: int)
    requires after == db.(
      snapshots := if c in db.snapshots then db.snapshots[c := Reactivate(Below(db.snapshots[c], from))] else db.snapshots,
      watermark := if c in db.watermark then db.watermark[c := from - 1] else db.watermark)
    ensures after == ResetClient(db, c, from)
  {
    if c in db.snapshots {
      assert db.snapshots[c := db.snapshots[c]] == db.snapshots;
    } else {
      assert Below(map[], from) == map[];
    }
  }

  lemma BaselineKeyIsReal(db: Db, c: Client)
    requires KeysUnique(db) && 0 in HistoryOf(db, c)
    ensures HistoryOf(db, c)[0].key !in StopgapKeys(HistoryOf(db, c))
  {
    var h := HistoryOf(db, c);
    assert IsRow(db, c, 0, h[0].key);
    forall l | l in h && l < 0
      ensures h[l].key != h[0].key
    {
      assert IsRow(db, c, l, h[l].key);
    }
  }

  lemma NothingParked(facts: map<FactId, Fact>, parked: set<FactId>, rows: seq<(FactId, int)>)
    requires parked <= facts.Keys
    requires forall r :: r in rows <==> r.0 in parked && r.1 == facts[r.0].day
    ensures rows == [] ==> parked == {}
  {
    if parked != {} {
      var id := Pick(parked);
      assert (id, facts[id].day) in rows;
    }
  }

  /** Any row at or above from; which one, the query does not say. */
  method SomeRowFrom(h: History, from: int) returns (l: int)
    requires DoomedKeys(h, from) != {}
    ensures l in h && from <= l
  {
    var doomed := set m | m in h && from <= m;
    ghost var k := Pick(DoomedKeys(h, from));
    ghost var m :| m in h && from <= m && h[m].key == k;
    assert m in doomed;
    l :| l in doomed;
  }

  /** What a reload has done after n clients of its list. */
  ghost predicate ReloadedSoFar(start: Db, now: Db, raw: Logs, fromTs: int, toTs: int, clients: seq<Client>, n: nat,
                                traces: seq<Trace>, picks: seq<int>, replayed: nat) {
    && n <= |clients| && IsReloadRun(start, raw, fromTs, toTs, clients[..n], traces, picks)
    && now == StateAfter(start, traces, n) && replayed == Replayed(raw, fromTs, toTs, clients[..n])
  }

  lemma NextMayReload(start: Db, now: Db, raw: Logs, fromTs: int, toTs: int, clients: seq<Client>, n: nat,
                      traces: seq<Trace>, picks: seq<int>, replayed: nat)
    requires ReloadedSoFar(start, now, raw, fromTs, toTs, clients, n, traces, picks, replayed)
    requires n < |clients| && clients[n] in Affected(raw, fromTs, toTs)
    ensures var c, from := clients[n], ResetPoint(raw, clients[n], fromTs, toTs);
      Ready(start, raw, fromTs, toTs) ==> Reloadable(now, raw, c, from, EventsFrom(raw, c, from))
  {
    NextIsReloadable(start, raw, fromTs, toTs, clients[..n], traces, picks, clients[n]);
  }

  lemma ReloadedOneMore(start: Db, now: Db, raw: Logs, fromTs: int, toTs: int, clients: seq<Client>, n: nat,
                        traces: seq<Trace>, picks: seq<int>, replayed: nat, tr: Trace, pick: int)
    requires ReloadedSoFar(start, now, raw, fromTs, toTs, clients, n, traces, picks, replayed)
    requires n < |clients| && clients[n] in Affected(raw, fromTs, toTs) && tr.start == now
    requires var from := ResetPoint(raw, clients[n], fromTs, toTs); IsReload(tr, clients[n], from, EventsFrom(raw, clients[n], from), pick)
    ensures ReloadedSoFar(start, tr.finish, raw, fromTs, toTs, clients, n + 1, traces + [tr], picks + [pick],
                          replayed + |EventsFrom(raw, clients[n], ResetPoint(raw, clients[n], fromTs, toTs))|)
  {
    RunOneMoreClient(start, raw, fromTs, toTs, clients, n, traces, picks, tr, pick);
  }

  lemma ReloadedAll(start: Db, now: Db, raw: Logs, fromTs: int, toTs: int, clients: seq<Client>,
                    traces: seq<Trace>, picks: seq<int>, replayed: nat)
    requires ReloadedSoFar(start, now, raw, fromTs, toTs, clients, |clients|, traces, picks, replayed)
    requires Distinct(clients) && forall c :: c in clients <==> c in Affected(raw, fromTs, toTs)
    ensures IsWholeRun(start, now, raw, fromTs, toTs, clients, traces, picks)
    ensures LogsOk(raw) ==> replayed == |DueEvents(raw, fromTs, toTs)|
  {
    assert clients[..|clients|] == clients;
    if LogsOk(raw) {
      ReplayedCount(raw, fromTs, toTs, clients);
    }
  }

  /** Clients by ascending rank, the place the database's collation gives an id. */
  ghost predicate InOrder(clients: seq<Client>, collation: Client -> int) {
    forall i, j | 0 <= i < j < |clients| :: collation(clients[i]) <= collation(clients[j])
  }

  method FirstOf(todo: set<Client>, collation: Client -> int) returns (c: Client)
    requires todo != {}
    ensures c in todo && forall d | d in todo :: collation(c) <= collation(d)
  {
    ghost var some := Pick(todo);
    c :| c in todo;
    var rest := todo - {c};
    while rest != {}
      invariant c in todo && rest <= todo
      invariant forall d | d in todo && d !in rest :: collation(c) <= collation(d)
      decreases rest
    {
      var d :| d in rest;
      if collation(d) < collation(c) {
        c := d;
      }
      rest := rest - {d};
    }
  }

  class Warehouse {
    var snapshots: map<Client, History>
    var watermark: map<Client, int>
    var quarantine: seq<Rejection>
    var facts: map<FactId, Fact>
    var nextKey: int

    /** The tables as one value. */
    ghost function State(): Db
      reads this
    {
      Db(snapshots, watermark, quarantine, facts, nextKey)
    }

    constructor ()
      ensures State() == Db(map[], map[], [], map[], 0)
    {
      snapshots, watermark, quarantine, facts, nextKey := map[], map[], [], map[], 0;
    }

    function RowsOf(c: Client): History
      reads this
      ensures RowsOf(c) == HistoryOf(State(), c)
    {
      if c in snapshots then snapshots[c] else map[]
    }

    /** One CDC event: watermark gate, end-dating, append or tombstone, watermark advance. */
    method ApplyCdcEvent(c: Client, lsn: int, commitTs: int, change: Change)
      modifies this
      ensures State() == ApplyEvent(old(State()), Event(c, lsn, commitTs, change))
    {
      if c !in watermark {
        watermark := watermark[c := 0];
      }
      if lsn <= watermark[c] {
        quarantine := quarantine + [Rejection(StaleLsn, c, lsn, change)];
        return;
      }
      EndDateAndAppend(Event(c, lsn, commitTs, change));
      watermark := watermark[c := lsn];
      GatePassed(old(State()), State(), Event(c, lsn, commitTs, change));
    }

    /** Steps 2 and 3: the current version is end-dated, then the new one appended. */
    method EndDateAndAppend(e: Event)
      modifies this
      ensures State() == old(State()).(snapshots := snapshots, nextKey := nextKey)
      ensures var closed := EndDate(HistoryOf(old(State()), e.client), e.commitTs);
        match AppendedAttributes(closed, e.change)
        case None =>
          nextKey == old(nextKey)
          && snapshots == if e.client in old(snapshots) then old(snapshots)[e.client := closed] else old(snapshots)
        case Some(attrs) =>
          nextKey == old(nextKey) + 1
          && snapshots == old(snapshots)[e.client := Append(closed, e.lsn, Opened(old(nextKey), attrs, e))]
    {
      EndDateCurrent(e.client, e.commitTs);
      assert RowsOf(e.client) == EndDate(HistoryOf(old(State()), e.client), e.commitTs);
      AppendVersion(e);
    }

    /** The new version of an insert or update, or the tombstone copied from the highest row. */
    method AppendVersion(e: Event)
      modifies this
      ensures State() == match AppendedAttributes(old(RowsOf(e.client)), e.change)
        case None => old(State())
        case Some(attrs) => old(State()).(
          snapshots := old(snapshots)[e.client :=
            Append(old(RowsOf(e.client)), e.lsn, Opened(old(nextKey), attrs, e))],
          nextKey := old(nextKey) + 1)
    {
      match e.change {
        case Insert(after) =>
          InsertRow(e.client, e.lsn, Opened(0, after, e));
        case Update(after) =>
          InsertRow(e.client, e.lsn, Opened(0, after, e));
        case Delete =>
          var h := RowsOf(e.client);
          if h != map[] {
            InsertRow(e.client, e.lsn, Opened(0, h[Max(h.Keys)].attrs.(status := "deleted"), e));
          }
      }
    }

    /** UPDATE ... SET valid_to, is_current = false WHERE is_current. */
    method EndDateCurrent(c: Client, commitTs: int)
      modifies this
      ensures State() == old(State()).(snapshots := snapshots)
      ensures snapshots == if c in old(snapshots) then old(snapshots)[c := EndDate(old(snapshots)[c], commitTs)]
                           else old(snapshots)
    {
      if c in snapshots {
        snapshots := snapshots[c := EndDate(snapshots[c], commitTs)];
      }
    }

    /** INSERT of a row, ON CONFLICT (client_id, source_lsn) DO NOTHING.  The surrogate key is
        drawn from the sequence in either case. */
    method InsertRow(c: Client, lsn: int, row: Version)
      modifies this
      ensures State() == old(State()).(snapshots := snapshots, nextKey := old(nextKey) + 1)
      ensures snapshots == old(snapshots)[c := Append(old(RowsOf(c)), lsn, row.(key := old(nextKey)))]
    {
      snapshots := snapshots[c := Append(RowsOf(c), lsn, row.(key := nextKey))];
      nextKey := nextKey + 1;
    }

    /** The as-of lookup, an unordered LIMIT 1. */
    method ResolveRiskSnapshotKey(c: Client, t: int) returns (key: Option<int>)
      ensures Resolves(HistoryOf(State(), c), t, key)
    {
      var found := Covering(RowsOf(c), t);
      if found == {} {
        return None;
      }
      ghost var some := Pick(found);
      var l :| l in found;
      return Some(RowsOf(c)[l].key);
    }

    /** reset_client_for_reload; the delete fails when a fact still refers to a deleted row. */
    method ResetClientForReload(c: Client, from: int) returns (ok: bool)
      modifies this
      ensures ok <==> DeleteAllowed(old(State()), DoomedKeys(HistoryOf(old(State()), c), from))
      ensures State() == if ok then ResetClient(old(State()), c, from) else old(State())
    {
      ok := Referring(Db(snapshots, watermark, quarantine, facts, nextKey), DoomedKeys(RowsOf(c), from)) == {};
      if !ok {
        return;
      }
      if c in snapshots {
        snapshots := snapshots[c := Below(snapshots[c], from)];
        ReactivateLatest(c);
      }
      if c in watermark {
        watermark := watermark[c := from - 1];
      }
      ResetDone(old(State()), State(), c, from);
    }

    /** UPDATE ... SET is_current, valid_to WHERE source_lsn is the highest there is. */
    method ReactivateLatest(c: Client)
      requires c in snapshots
      modifies this
      ensures State() == old(State()).(snapshots := old(snapshots)[c := Reactivate(old(snapshots)[c])])
    {
      if snapshots[c] != map[] {
        var restore := Max(snapshots[c].Keys);
        snapshots := snapshots[c := snapshots[c][restore :=
          snapshots[c][restore].(isCurrent := true, validTo := END_OF_TIME)]];
      }
    }

    /** One round of the two replay loops. */
    method HandleOne(e: Event)
      modifies this
      ensures State() == HandleEvent(old(State()), e)
    {
      if e.change.Delete? && RowsOf(e.client) == map[] {
        quarantine := quarantine + [Rejection(DeleteWithNoBaseline, e.client, e.lsn, e.change)];
      } else {
        ApplyCdcEvent(e.client, e.lsn, e.commitTs, e.change);
      }
    }

    /** scd2_apply over the staging table in staging order. */
    method Scd2Apply(staged: seq<Event>, ghost logs: Logs) returns (processed: nat)
      modifies this
      ensures State() == StreamRun(old(State()), staged)
      ensures processed == |Selected(old(State()), staged)|
      ensures Streamable(old(State()), logs, staged) ==>
        processed == (|Rows(State())| - |Rows(old(State()))|) + (|quarantine| - |old(quarantine)|)
    {
      var rows := Selected(Db(snapshots, watermark, quarantine, facts, nextKey), staged);
      processed := 0;
      while processed < |rows|
        invariant processed <= |rows|
        invariant State() == Handle(old(State()), rows[..processed])
      {
        HandleOne(rows[processed]);
        assert DropLast(rows[..processed + 1]) == rows[..processed];
        processed := processed + 1;
      }
      assert rows[..processed] == rows;
      if Streamable(old(State()), logs, staged) {
        RunConserves(old(State()), logs, rows);
      }
    }

    /** UPDATE one fact table SET key = target WHERE key = ANY(keys). */
    method RedirectTable(table: FactTable, keys: set<int>, target: int)
      modifies this`facts
      ensures facts == RedirectTables(old(facts), {table}, keys, target)
    {
      facts := map id | id in facts ::
        if id.table in {table} && facts[id].snapshotKey in keys then facts[id].(snapshotKey := target) else facts[id];
    }

    /** SELECT pk, event_date FROM one fact table WHERE key = ANY(keys), in whatever order. */
    method SelectReferring(table: FactTable, keys: set<int>) returns (rows: seq<(FactId, int)>)
      ensures forall r :: r in rows <==>
        r.0 in facts && r.0.table == table && facts[r.0].snapshotKey in keys && r.1 == facts[r.0].day
    {
      rows := [];
      var found := set id | id in facts && id.table == table && facts[id].snapshotKey in keys;
      while found != {}
        invariant forall id :: id in found ==> id in facts && id.table == table && facts[id].snapshotKey in keys
        invariant forall r :: r in rows ==>
          r.0 in facts && r.0.table == table && facts[r.0].snapshotKey in keys && r.1 == facts[r.0].day
        invariant forall id :: id in facts && id.table == table && facts[id].snapshotKey in keys ==>
          id in found || (id, facts[id].day) in rows
        decreases found
      {
        var id :| id in found;
        rows := rows + [(id, facts[id].day)];
        found := found - {id};
      }
    }

    /** _repoint_facts_for_reset: finds the facts on rows about to be deleted and moves them to
        the surviving version or to a placeholder made for them. */
    method RepointFactsForReset(c: Client, from: int)
      returns (toRepoint: seq<(FactId, int)>, created: Option<int>, ghost pick: int)
      modifies this
      ensures pick in old(RowsOf(c)) || !NeedsPlaceholder(old(State()), c, from)
      ensures State() == Park(old(State()), c, from, pick).0
      ensures created == if Park(old(State()), c, from, pick).1.placeholder.Some? then Some(old(nextKey)) else None
      ensures forall r :: r in toRepoint <==>
        r.0 in Park(old(State()), c, from, pick).1.parked && r.1 == old(facts)[r.0].day
    {
      var h := RowsOf(c);
      var doomed := DoomedKeys(h, from);
      toRepoint, created, pick := [], None, 0;
      ghost var parked := Referring(State(), doomed);
      if doomed == {} {
        assert parked == {};
        return;
      }
      var deposits := SelectReferring(FactDeposits, doomed);
      var trades := SelectReferring(FactTrades, doomed);
      toRepoint := deposits + trades;
      MembersOfBoth(deposits, trades);
      assert forall r :: r in toRepoint <==> r.0 in parked && r.1 == facts[r.0].day;
      if toRepoint == [] {
        NothingParked(facts, parked, toRepoint);
        return;
      }
      assert toRepoint[0].0 in parked;
      var safe: int;
      if Below(h, from) != map[] {
        safe := h[Max(Below(h, from).Keys)].key;
      } else {
        var copied := SomeRowFrom(h, from);
        pick := copied;
        safe := InsertPlaceholderRow(c, from, h[copied].attrs);
        created := Some(safe);
      }
      TablesOfParked(facts, parked, toRepoint);
      RedirectFacts(doomed, safe, TablesIn(toRepoint));
    }

    /** INSERT ... RETURNING of the throwaway row. */
    method InsertPlaceholderRow(c: Client, from: int, attrs: Attributes) returns (key: int)
      requires Below(RowsOf(c), from) == map[]
      modifies this
      ensures key == old(nextKey)
      ensures State() == Inject(old(State()), c, InsertPlaceholder(Project(old(State()), c), from, Some(attrs)))
    {
      assert from - 1 !in Below(RowsOf(c), from);
      key := nextKey;
      InsertRow(c, from - 1, Version(0, attrs, BEGINNING_OF_TIME, END_OF_TIME, false, false));
      assert from - 1 in RowsOf(c);
    }

    /** UPDATE each of the given fact tables; no other table has a matching row. */
    method RedirectFacts(keys: set<int>, target: int, tables: set<FactTable>)
      requires forall id | id in facts && facts[id].snapshotKey in keys :: id.table in tables
      modifies this`facts
      ensures facts == Redirect(old(facts), keys, target)
    {
      ghost var done: set<FactTable> := {};
      var todo := tables;
      while todo != {}
        invariant done + todo == tables
        invariant facts == RedirectTables(old(facts), done, keys, target)
        decreases todo
      {
        var table :| table in todo;
        RedirectTable(table, keys, target);
        todo, done := todo - {table}, done + {table};
      }
    }

    /** _reresolve_facts_after_reload: looks each parked fact up again, then deletes the
        placeholder.  Fails when a lookup finds nothing or a fact still refers to the
        placeholder. */
    method ReresolveFactsAfterReload(c: Client, toRepoint: seq<(FactId, int)>, created: Option<int>)
      returns (ok: bool, ghost resolved: Db)
      requires forall r | r in toRepoint :: r.0 in facts && r.1 == facts[r.0].day
      modifies this
      ensures ok ==> Reresolved(old(State()), c, ParkedIds(toRepoint), resolved)
      ensures ok ==> State() == if created.None? then resolved else DeleteKeys(resolved, {created.value})
      ensures !ok ==>
        (exists r :: r in toRepoint && Covering(HistoryOf(old(State()), c), Midnight(r.1)) == {})
        || (Reresolved(old(State()), c, ParkedIds(toRepoint), resolved)
            && created.Some? && !DeleteAllowed(resolved, {created.value}))
    {
      resolved := State();
      var i := 0;
      while i < |toRepoint|
        invariant 0 <= i <= |toRepoint|
        invariant Reresolved(old(State()), c, ParkedIds(toRepoint[..i]), State())
      {
        var (id, day) := toRepoint[i];
        var found := ResolveRiskSnapshotKey(c, Midnight(day));
        if found.None? {
          assert toRepoint[i] in toRepoint;
          return false, resolved;
        }
        ghost var before := State();
        facts := facts[id := facts[id].(snapshotKey := found.value)];
        OneMoreResolved(old(State()), before, c, toRepoint, i, found.value);
        i := i + 1;
      }
      assert toRepoint[..i] == toRepoint;
      resolved := State();
      ok := true;
      if created.Some? {
        ok := DeleteRows({created.value});
      }
    }

    /** DELETE ... WHERE risk_snapshot_key = ANY(keys); fails when a fact refers to one. */
    method DeleteRows(keys: set<int>) returns (ok: bool)
      modifies this
      ensures ok <==> DeleteAllowed(old(State()), keys)
      ensures State() == if ok then DeleteKeys(old(State()), keys) else old(State())
    {
      ok := Referring(Db(snapshots, watermark, quarantine, facts, nextKey), keys) == {};
      if ok {
        snapshots := map d | d in snapshots :: WithoutKeys(snapshots[d], keys);
      }
    }

    /** The reload of one client up to the end of the replay. */
    method RebuildClient(c: Client, from: int, es: seq<Event>, ghost logs: Logs)
      returns (ok: bool, toRepoint: seq<(FactId, int)>, created: Option<int>, ghost tr: Trace, ghost pick: int)
      modifies this
      ensures ok ==> IsRebuild(tr, c, from, es, pick) && tr.start == old(State()) && tr.replayed == State()
      ensures ok ==> forall r :: r in toRepoint <==> r.0 in tr.parking.parked && r.1 == tr.start.facts[r.0].day
      ensures ok ==> created == if tr.parking.placeholder.Some? then Some(old(nextKey)) else None
      ensures Reloadable(old(State()), logs, c, from, es) ==> ok
    {
      ghost var start := State();
      ghost var ready := Reloadable(start, logs, c, from, es);
      toRepoint, created, pick := RepointFactsForReset(c, from);
      tr := Trace(start, State(), start, start, start, start, Park(start, c, from, pick).1);
      if ready {
        ParkingKeepsIntegrity(start, logs, c, from, es, pick);
        ParkingInsertsPlaceholder(start, c, from, pick);
      }
      ok := ResetClientForReload(c, from);
      if !ok {
        return;
      }
      tr := tr.(reset := State());
      Replay(es);
      tr := tr.(replayed := State());
    }

    /** The reload of one client inside historical_reload. */
    method ReloadClient(c: Client, from: int, es: seq<Event>, ghost logs: Logs)
      returns (ok: bool, ghost tr: Trace, ghost pick: int)
      modifies this
      ensures ok ==> IsReload(tr, c, from, es, pick) && tr.start == old(State()) && tr.finish == State()
      ensures Reloadable(old(State()), logs, c, from, es) ==> ok
    {
      ghost var ready := Reloadable(State(), logs, c, from, es);
      var toRepoint, created;
      ok, toRepoint, created, tr, pick := RebuildClient(c, from, es, logs);
      if !ok {
        return;
      }
      ParkedRowsStay(tr, c, from, es, pick);
      ParkedIdsAre(tr.start.facts, tr.parking.parked, toRepoint);
      if ready {
        EveryLookupFinds(tr, logs, c, from, es, pick);
      }
      ghost var resolved := State();
      if toRepoint != [] {
        ok, resolved := ReresolveFactsAfterReload(c, toRepoint, created);
      } else {
        NothingParked(tr.start.facts, tr.parking.parked, toRepoint);
      }
      tr := tr.(
        resolved := resolved,
        finish := if tr.parking.placeholder.None? then resolved else DeleteKeys(resolved, {tr.start.nextKey}));
      if ready && created.Some? && Reresolved(tr.replayed, c, tr.parking.parked, resolved) {
        ReloadKeepsIntegrity(tr, logs, c, from, es, pick);
      }
    }

    /** Replay of a client's events in lsn order. */
    method Replay(es: seq<Event>)
      modifies this
      ensures State() == Handle(old(State()), es)
    {
      var i := 0;
      while i < |es|
        invariant 0 <= i <= |es|
        invariant State() == Handle(old(State()), es[..i])
      {
        HandleOne(es[i]);
        assert DropLast(es[..i + 1]) == es[..i];
        i := i + 1;
      }
      assert es[..i] == es;
    }

    /** historical_reload: the driver query, then one affected client after another. */
    method HistoricalReload(raw: Logs, fromTs: int, toTs: int, collation: Client -> int)
      returns (ok: bool, clients: seq<Client>, replayed: nat, ghost traces: seq<Trace>, ghost picks: seq<int>)
      modifies this
      ensures ok ==> IsWholeRun(old(State()), State(), raw, fromTs, toTs, clients, traces, picks)
      ensures ok && LogsOk(raw) ==> replayed == |DueEvents(raw, fromTs, toTs)|
      ensures InOrder(clients, collation)
      ensures Ready(old(State()), raw, fromTs, toTs) ==> ok
    {
      ok, replayed, traces, picks := true, 0, [], [];
      clients := SelectAffected(raw, fromTs, toTs, collation);
      var n := 0;
      while n < |clients|
        invariant 0 <= n <= |clients| && ok
        invariant ReloadedSoFar(old(State()), State(), raw, fromTs, toTs, clients, n, traces, picks, replayed)
      {
        ghost var now := State();
        var c := clients[n];
        var from := ResetPoint(raw, c, fromTs, toTs);
        var events := EventsFrom(raw, c, from);
        NextMayReload(old(State()), now, raw, fromTs, toTs, clients, n, traces, picks, replayed);
        ghost var tr, pick;
        ok, tr, pick := ReloadClient(c, from, events, raw);
        if !ok {
          return;
        }
        ReloadedOneMore(old(State()), now, raw, fromTs, toTs, clients, n, traces, picks, replayed, tr, pick);
        traces, picks := traces + [tr], picks + [pick];
        replayed := replayed + |events|;
        n := n + 1;
      }
      ReloadedAll(old(State()), State(), raw, fromTs, toTs, clients, traces, picks, replayed);
    }

    /** SELECT client_id ... GROUP BY client_id ORDER BY client_id, under the database's collation. */
    static method SelectAffected(raw: Logs, fromTs: int, toTs: int, collation: Client -> int) returns (clients: seq<Client>)
      ensures Distinct(clients) && InOrder(clients, collation)
      ensures forall c :: c in clients <==> c in Affected(raw, fromTs, toTs)
    {
      clients := [];
      var todo := Affected(raw, fromTs, toTs);
      while todo != {}
        invariant Distinct(clients) && InOrder(clients, collation)
        invariant forall c :: c in Affected(raw, fromTs, toTs) <==> c in clients || c in todo
        invariant forall c, d | c in clients && d in todo :: c != d && collation(c) <= collation(d)
        decreases todo
      {
        var c := FirstOf(todo, collation);
        clients, todo := clients + [c], todo - {c};
      }
    }

    /** The reload as a transaction: when it fails every table is as before; surrogate keys
        drawn in between are lost. */
    method RunReload(raw: Logs, fromTs: int, toTs: int, collation: Client -> int)
      returns (ok: bool, clients: seq<Client>, replayed: nat, ghost traces: seq<Trace>, ghost picks: seq<int>)
      modifies this
      ensures ok ==> IsWholeRun(old(State()), State(), raw, fromTs, toTs, clients, traces, picks)
      ensures ok && LogsOk(raw) ==> replayed == |DueEvents(raw, fromTs, toTs)|
      ensures InOrder(clients, collation)
      ensures Ready(old(State()), raw, fromTs, toTs) ==> ok
      ensures !ok ==> State() == old(State()).(nextKey := nextKey)
    {
      var before := Db(snapshots, watermark, quarantine, facts, nextKey);
      ok, clients, replayed, traces, picks := HistoricalReload(raw, fromTs, toTs, collation);
      if !ok {
        snapshots, watermark, quarantine, facts := before.snapshots, before.watermark, before.quarantine, before.facts;
      }
    }

    /** _repoint_and_clear_stopgap_snapshots. */
    method RepointAndClearStopgaps(c: Client, realKey: int) returns (ok: bool)
      modifies this
      ensures ok ==> State() == ClearStopgaps(old(State()), c, realKey)
      ensures realKey !in StopgapKeys(old(RowsOf(c))) ==> ok
    {
      var stopgaps := StopgapKeys(RowsOf(c));
      if stopgaps == {} {
        return true;
      }
      forall id | id in facts
        ensures id.table in {FactDeposits, FactTrades}
      {
        assert id.table == FactDeposits || id.table == FactTrades;
      }
      RedirectFacts(stopgaps, realKey, {FactDeposits, FactTrades});
      ok := DeleteRows(stopgaps);
    }

    /** _seed_baseline_and_repoint. */
    method SeedBaselineAndRepoint(c: Client, attrs: Attributes) returns (ok: bool, newly: bool)
      modifies this
      ensures ok ==> State() == SeedClient(old(State()), c, attrs)
      ensures newly <==> forall l | l in HistoryOf(old(State()), c) :: l < 0
      ensures Seedable(old(State())) ==> ok
    {
      if HasRealRows(RowsOf(c)) {
        return true, false;
      }
      newly := 0 !in RowsOf(c);
      InsertRow(c, 0, Version(0, attrs, BEGINNING_OF_TIME, END_OF_TIME, true, false));
      assert State() == WithBaseline(old(State()), c, attrs);
      if Seedable(old(State())) {
        BaselineKeepsIntegrity(old(State()), c, attrs);
        BaselineKeyIsReal(State(), c);
      }
      ok := RepointAndClearStopgaps(c, RowsOf(c)[0].key);
    }

    /** One profile row, skipped where its client is excluded. */
    method SeedProfile(c: Client, attrs: Attributes, excluded: set<Client>) returns (ok: bool, newly: bool)
      modifies this
      ensures ok ==> State() == if c in excluded then old(State()) else SeedClient(old(State()), c, attrs)
      ensures newly <==> c !in excluded && forall l | l in HistoryOf(old(State()), c) :: l < 0
      ensures Seedable(old(State())) ==> ok
    {
      ok, newly := true, false;
      if c !in excluded {
        ok, newly := SeedBaselineAndRepoint(c, attrs);
      }
    }

    /** The next profile row, and the count so far. */
    method SeedNextProfile(profile: seq<(Client, Attributes)>, excluded: set<Client>, n: nat, seeded: nat, ghost start: Db)
      returns (ok: bool, total: nat)
      requires n < |profile| && ProfilesSeeded(start, State(), profile, excluded, n, seeded)
      modifies this
      ensures ok ==> ProfilesSeeded(start, State(), profile, excluded, n + 1, total)
      ensures Seedable(start) ==> ok
    {
      ghost var now := State();
      ProfilesKeepSeedable(start, now, profile, excluded, n, seeded);
      var newly;
      ok, newly := SeedProfile(profile[n].0, profile[n].1, excluded);
      total := seeded + if newly then 1 else 0;
      if ok {
        ProfileSeeded(start, now, State(), profile, excluded, n, seeded, newly);
      }
    }

    /** The profile rows of scd2_baseline_seed. */
    method SeedProfiles(profile: seq<(Client, Attributes)>, excluded: set<Client>) returns (ok: bool, seeded: nat)
      modifies this
      ensures ok ==> SeededSoFar(old(State()), State(), Eligible(profile, excluded), seeded)
      ensures Seedable(old(State())) ==> ok
    {
      ok, seeded := true, 0;
      var i := 0;
      while i < |profile|
        invariant 0 <= i <= |profile| && ok
        invariant ProfilesSeeded(old(State()), State(), profile, excluded, i, seeded)
      {
        ok, seeded := SeedNextProfile(profile, excluded, i, seeded, old(State()));
        if !ok {
          return;
        }
        i := i + 1;
      }
      AllProfilesSeeded(old(State()), State(), profile, excluded, seeded);
    }

    /** The orphan clients of scd2_baseline_seed, a set without order. */
    method SeedOrphans(clients: set<Client>)
      returns (ok: bool, seeded: nat, ghost orphans: seq<(Client, Attributes)>)
      modifies this
      ensures ok ==> SeededSoFar(old(State()), State(), orphans, seeded)
      ensures ok ==> SentinelList(clients, orphans)
      ensures Seedable(old(State())) ==> ok
    {
      ok, seeded, orphans := true, 0, [];
      var todo := clients;
      while todo != {}
        invariant ok && todo <= clients && SentinelList(clients - todo, orphans)
        invariant SeededSoFar(old(State()), State(), orphans, seeded)
        decreases todo
      {
        var c :| c in todo;
        ghost var now := State();
        SeededKeepsSeedable(old(State()), now, orphans, seeded);
        var newly;
        ok, newly := SeedBaselineAndRepoint(c, UNKNOWN);
        if !ok {
          return;
        }
        OneMoreSentinel(clients - todo, orphans, c);
        assert clients - (todo - {c}) == (clients - todo) + {c};
        OneMoreSeeded(old(State()), now, State(), orphans, seeded, (c, UNKNOWN), newly);
        orphans, todo := orphans + [(c, UNKNOWN)], todo - {c};
        seeded := seeded + if newly then 1 else 0;
      }
      assert clients - todo == clients;
    }

    /** scd2_baseline_seed; records are the change records read from the source files. */
    method Scd2BaselineSeed(profile: seq<(Client, Attributes)>, records: seq<CdcRecord>)
      returns (ok: bool, seeded: nat, ghost excluded: set<Client>, ghost orphans: seq<(Client, Attributes)>)
      modifies this
      ensures forall c :: c in excluded <==>
        exists i :: 0 <= i < |records| && records[i].client == c && records[i].op == InsertOp
          && (forall r | r in records && r.client == c :: records[i].lsn <= r.lsn)
          && forall j | 0 <= j < i :: records[j].client != c || records[i].lsn < records[j].lsn
      ensures ok ==> IsSeedRun(old(State()), profile, excluded, orphans, State())
      ensures Seedable(old(State())) ==> ok && seeded == |NewBaselines(old(State()), State())|
    {
      var earliest := EarliestOpPerClient(records);
      var skip := set c | c in earliest && earliest[c] == InsertOp;
      excluded, orphans := skip, [];
      forall c
        ensures c in excluded <==>
          exists i :: 0 <= i < |records| && records[i].client == c && records[i].op == InsertOp
            && (forall r | r in records && r.client == c :: records[i].lsn <= r.lsn)
            && forall j | 0 <= j < i :: records[j].client != c || records[i].lsn < records[j].lsn
      {
        InsertFirstClients(records, earliest, c);
      }
      ok, seeded := SeedProfiles(profile, skip);
      if !ok {
        return;
      }
      ghost var mid := State();
      if Seedable(old(State())) {
        SeedEachKeepsSeedable(old(State()), Eligible(profile, excluded));
      }
      var todo := (set c | c in snapshots && StopgapKeys(snapshots[c]) != {}) - (set r | r in profile :: r.0) - skip;
      var more;
      ok, more, orphans := SeedOrphans(todo);
      seeded := seeded + more;
      if ok {
        OrphansFound(mid, profile, excluded, todo, orphans);
        if Seedable(old(State())) {
          RunCountsNewBaselines(old(State()), profile, excluded, orphans, State());
        }
      }
    }

    /** _resolve_risk_snapshot_key with a stopgap row on a miss; None stands for the raise. */
    method ResolveOrSeedStopgap(c: Client, t: int) returns (key: Option<int>)
      modifies this
      ensures var h := HistoryOf(old(State()), c);
        if Covering(h, t) != {} then State() == old(State()) && key.Some? && Resolves(h, t, key)
        else if HasHistory(h) then State() == old(State()) && key == None
        else State() == Allocate(old(State()), c, t) && key == Some(old(nextKey))
    {
      key := ResolveRiskSnapshotKey(c, t);
      if key.Some? {
        return;
      }
      if HasHistory(RowsOf(c)) {
        return None;
      }
      StopgapAnswers(RowsOf(c), nextKey, t, t);
      StopgapLsnIsFree(RowsOf(c));
      InsertRow(c, StopgapLsn(RowsOf(c)), Stopgap(0, t));
      assert State() == Allocate(old(State()), c, t);
      key := ResolveRiskSnapshotKey(c, t);
    }

    /** fact_upsert over the staged rows, in whatever order the SELECT returns them.  It raises
        exactly when some row's client has history but no version covering the row's day. */
    method FactUpsert(rows: seq<FactRow>) returns (ok: bool, loaded: nat, ghost trace: seq<Db>)
      modifies this
      ensures ok <==> forall r | r in rows :: !Unresolvable(old(State()), r)
      ensures loaded <= |rows| && (ok ==> loaded == |rows|)
      ensures IsFactLoad(old(State()), rows[..loaded], trace) && State() == trace[loaded]
      ensures !ok ==> loaded < |rows| && Unresolvable(old(State()), rows[loaded])
    {
      ok, loaded, trace := true, 0, [State()];
      while loaded < |rows|
        invariant loaded <= |rows| && ok
        invariant IsFactLoad(old(State()), rows[..loaded], trace) && State() == trace[loaded]
        invariant forall r | r in rows[..loaded] :: !Unresolvable(old(State()), r)
      {
        var row := rows[loaded];
        ghost var before := State();
        RaisesAsBefore(old(State()), rows[..loaded], trace, loaded, row);
        var key := ResolveOrSeedStopgap(row.client, Midnight(row.day));
        if key.None? {
          assert row in rows;
          return false, loaded, trace;
        }
        facts := facts[row.id := Fact(row.client, row.day, key.value, row.measures)];
        assert Loaded(before, row, State());
        LoadOneMore(old(State()), rows, trace, loaded, State());
        assert rows[..loaded + 1] == rows[..loaded] + [row];
        trace := trace + [State()];
        loaded := loaded + 1;
      }
      assert rows[..loaded] == rows;
    }

    /** The load as a transaction: when it raises every table is as before; surrogate keys drawn in
        between are lost. */
    method RunFactUpsert(rows: seq<FactRow>) returns (ok: bool, ghost trace: seq<Db>)
      modifies this
      ensures ok <==> forall r | r in rows :: !Unresolvable(old(State()), r)
      ensures ok ==> IsFactLoad(old(State()), rows, trace) && State() == trace[|rows|]
      ensures !ok ==> State() == old(State()).(nextKey := nextKey)
    {
      var before := Db(snapshots, watermark, quarantine, facts, nextKey);
      var loaded;
      ok, loaded, trace := FactUpsert(rows);
      if !ok {
        snapshots, watermark, quarantine, facts := before.snapshots, before.watermark, before.quarantine, before.facts;
      } else {
        assert rows[..loaded] == rows;
      }
    }
  }
}

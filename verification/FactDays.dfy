/** Which version a fact of a day may be on, in terms of the day itself: the one in force at its first
instant (fact_upsert in layer3_warehouse.py, _reresolve_facts_after_reload in reload.py). */
module FactDays {
  import opened Model
  import opened Histories
  import opened Database
  import opened StreamRuns
  import opened FactIntegrity
  import opened ReloadSteps
  import opened ReloadRuns
  import opened FactLoad
  import opened Reachability

  /** Version v is in force at the first instant of the day. */
  predicate InForce(v: Version, day: int) {
    v.validFrom <= day * 86_400_000_000 < v.validTo
  }

  /** A version that starts after the first instant of a fact's day is never the one the fact is on. */
  lemma NotOnLaterVersion(db: Db, id: FactId, c: Client, l: int)
    requires KeysUnique(db) && FactsAnchored(db) && id in db.facts && l in HistoryOf(db, c)
    requires db.facts[id].day * 86_400_000_000 < HistoryOf(db, c)[l].validFrom
    ensures db.facts[id].snapshotKey != HistoryOf(db, c)[l].key
  {
    var f := db.facts[id];
    assert Anchored(db, f);
    var m :| AnchoredAt(db, f, m);
    assert IsRow(db, c, l, HistoryOf(db, c)[l].key);
    DayOfInstant(f.day, HistoryOf(db, c)[l].validFrom);
  }

  /** Not in any state of any lifetime. */
  lemma NeverOnLaterVersion(life: seq<World>, i: nat, id: FactId, c: Client, l: int)
    requires IsLifetime(life) && i < |life|
    requires id in life[i].db.facts && l in HistoryOf(life[i].db, c)
    requires life[i].db.facts[id].day * 86_400_000_000 < HistoryOf(life[i].db, c)[l].validFrom
    ensures life[i].db.facts[id].snapshotKey != HistoryOf(life[i].db, c)[l].key
  {
    AlwaysOk(life, i);
    NotOnLaterVersion(life[i].db, id, c, l);
  }

  /** After a load from unambiguous tables each staged row's fact is on the one version of its client
      in force at the first instant of its day. */
  lemma LoadedFactIsInForce(db: Db, rows: seq<FactRow>, trace: seq<Db>, i: nat) returns (l: int)
    requires IsFactLoad(db, rows, trace) && AllDisjoint(db) && DistinctIds(rows) && i < |rows|
    ensures var end, row := trace[|rows|], rows[i]; var h := HistoryOf(end, row.client);
      && l in h && InForce(h[l], row.day) && (forall m | m in h && InForce(h[m], row.day) :: m == l)
      && row.id in end.facts && end.facts[row.id] == Fact(row.client, row.day, h[l].key, row.measures)
  {
    FactLoadIsAsOf(db, rows, trace, |rows|, i);
    var end, row := trace[|rows|], rows[i];
    var h := HistoryOf(end, row.client);
    l :| Covering(h, Midnight(row.day)) == {l} && end.facts[row.id] == Fact(row.client, row.day, h[l].key, row.measures);
    assert l in Covering(h, Midnight(row.day));
    forall m | m in h && InForce(h[m], row.day)
      ensures m == l
    {
      assert m in Covering(h, Midnight(row.day));
    }
  }

  /** A fact a reload moves ends on a version of its client in force at the first instant of its day,
      the only one unless windows overlap. */
  lemma MovedFactIsInForce(start: Db, raw: Logs, fromTs: int, toTs: int,
                           clients: seq<Client>, traces: seq<Trace>, picks: seq<int>, id: FactId) returns (l: int)
    requires IsReloadRun(start, raw, fromTs, toTs, clients, traces, picks) && Distinct(clients)
    requires Ready(start, raw, fromTs, toTs) && id in start.facts
    requires var end := StateAfter(start, traces, |traces|); id in end.facts && end.facts[id] != start.facts[id]
    ensures var end, f := StateAfter(start, traces, |traces|), start.facts[id]; var h := HistoryOf(end, f.client);
      && l in h && InForce(h[l], f.day) && end.facts[id] == f.(snapshotKey := h[l].key)
      && (Disjoint(h) ==> forall m | m in h && InForce(h[m], f.day) :: m == l)
  {
    RunLandsFacts(start, raw, fromTs, toTs, clients, traces, picks, id);
    var end, f := StateAfter(start, traces, |traces|), start.facts[id];
    var h := HistoryOf(end, f.client);
    l :| LandsOn(end, f, end.facts[id], l);
    forall m | m in h && InForce(h[m], f.day)
      ensures m in Covering(h, Midnight(f.day))
    {
    }
  }
}

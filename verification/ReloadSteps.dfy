/** The reload of one client statement by statement, with the facts that point into the rows
it deletes (reload.py). */
module ReloadSteps {
  import opened Model
  import opened FiniteSets
  import opened Histories
  import opened ClientCdc
  import opened Lists
  import opened Rewind
  import opened ClientReload
  import opened StopgapReload
  import opened Database
  import opened StreamRuns
  import opened FactIntegrity

  /** The surrogate keys of the rows a reset at from deletes. */
  function DoomedKeys(h: History, from: int): set<int> {
    set l | l in h && from <= l :: h[l].key
  }

  /** What the reload has to remember between the reset and the end. */
  datatype Parking = Parking(parked: set<FactId>, placeholder: Option<Attributes>)

  /** A placeholder is needed when facts must move and no version survives. */
  predicate NeedsPlaceholder(db: Db, c: Client, from: int) {
    && Referring(db, DoomedKeys(HistoryOf(db, c), from)) != {}
    && Below(HistoryOf(db, c), from) == map[]
  }

  /** _repoint_facts_for_reset; pick is the doomed row whose values the placeholder copies. */
  function Park(db: Db, c: Client, from: int, pick: int): (r: (Db, Parking))
    requires pick in HistoryOf(db, c) || !NeedsPlaceholder(db, c, from)
  {
    var h := HistoryOf(db, c);
    var doomed := DoomedKeys(h, from);
    var parked := Referring(db, doomed);
    if parked == {} then (db, Parking({}, None))
    else if Below(h, from) != map[] then
      var safe := h[Max(Below(h, from).Keys)].key;
      (db.(facts := Redirect(db.facts, doomed, safe)), Parking(parked, None))
    else
      var attrs := Some(h[pick].attrs);
      var with := Inject(db, c, InsertPlaceholder(Project(db, c), from, attrs));
      (with.(facts := Redirect(db.facts, doomed, db.nextKey)), Parking(parked, attrs))
  }

  /** reset_client_for_reload. */
  function ResetClient(db: Db, c: Client, from: int): Db {
    Inject(db, c, Reset(Project(db, c), from))
  }

  /** The parked facts have each moved to some row the as-of lookup returns; facts of any
      other kind have not. */
  ghost predicate Reresolved(db: Db, c: Client, parked: set<FactId>, after: Db) {
    && after == db.(facts := after.facts)
    && after.facts.Keys == db.facts.Keys
    && (forall id | id in db.facts && id !in parked :: after.facts[id] == db.facts[id])
    && forall id | id in db.facts && id in parked :: MovedTo(db, c, db.facts[id], after.facts[id])
  }

  ghost predicate MovedTo(db: Db, c: Client, f: Fact, g: Fact) {
    && g == f.(snapshotKey := g.snapshotKey)
    && exists l :: l in Covering(HistoryOf(db, c), Midnight(f.day)) && HistoryOf(db, c)[l].key == g.snapshotKey
  }

  /** One client's reload, statement group by statement group. */
  datatype Trace = Trace(start: Db, parked: Db, reset: Db, replayed: Db, resolved: Db, finish: Db, parking: Parking)

  /** Up to the end of the replay. */
  ghost predicate IsRebuild(tr: Trace, c: Client, from: int, es: seq<Event>, pick: int) {
    && (pick in HistoryOf(tr.start, c) || !NeedsPlaceholder(tr.start, c, from))
    && (tr.parked, tr.parking) == Park(tr.start, c, from, pick)
    && tr.reset == ResetClient(tr.parked, c, from)
    && tr.replayed == Handle(tr.reset, es)
  }

  ghost predicate IsReload(tr: Trace, c: Client, from: int, es: seq<Event>, pick: int) {
    && IsRebuild(tr, c, from, es, pick)
    && Reresolved(tr.replayed, c, tr.parking.parked, tr.resolved)
    && tr.finish == if tr.parking.placeholder.None? then tr.resolved else DeleteKeys(tr.resolved, {tr.start.nextKey})
  }

  /** The state a reload may rely on: sound keys and facts, and a client whose real rows follow
      its log, with the whole log from the reset point on. */
  ghost predicate Reloadable(db: Db, logs: Logs, c: Client, from: int, es: seq<Event>) {
    && KeysUnique(db) && FactsAnchored(db) && DaysInRange(db)
    && LogOk(LogOf(logs, c)) && LayeredIn(db, logs, c)
    && AscendingEvents(es) && es != [] && es[0].lsn == from
    && (forall i | 0 <= i < |es| :: es[i].client == c && Logged(LogOf(logs, c), es[i]))
    && forall l | l in LogOf(logs, c) && from <= l :: exists i :: 0 <= i < |es| && es[i].lsn == l
  }

  ghost predicate DaysInRange(db: Db) {
    forall id | id in db.facts :: BEGINNING_OF_TIME <= Midnight(db.facts[id].day) < END_OF_TIME
  }

  /** A parked fact belongs to the reloaded client and its old version had started. */
  lemma ParkedFact(db: Db, logs: Logs, c: Client, from: int, es: seq<Event>, id: FactId) returns (l: int)
    requires Reloadable(db, logs, c, from, es)
    requires id in Referring(db, DoomedKeys(HistoryOf(db, c), from))
    ensures db.facts[id].client == c && from <= l && AnchoredAt(db, db.facts[id], l)
  {
    var f := db.facts[id];
    var h := HistoryOf(db, c);
    var m :| m in h && from <= m && h[m].key == f.snapshotKey;
    assert IsRow(db, c, m, f.snapshotKey);
    assert Anchored(db, f);
    l :| AnchoredAt(db, f, l);
  }

  /** Facts parked on a stopgap may sit on a row that starts after their day until they are looked
      up again; nothing else ever does. */
  ghost function Loose(db: Db, c: Client, from: int): set<FactId> {
    var h := HistoryOf(db, c);
    if Below(h, from) != map[] && Max(Below(h, from).Keys) < 0 then Referring(db, DoomedKeys(h, from)) else {}
  }

  /** Parking onto the version that survives the reset. */
  lemma ParkOnSurvivor(db: Db, logs: Logs, c: Client, from: int, es: seq<Event>)
    requires Reloadable(db, logs, c, from, es) && Below(HistoryOf(db, c), from) != map[]
    ensures var h := HistoryOf(db, c); var doomed := DoomedKeys(h, from);
      var after := db.(facts := Redirect(db.facts, doomed, h[Max(Below(h, from).Keys)].key));
      KeysUnique(after) && FactsHeld(after, Loose(db, c, from)) && DeleteAllowed(after, doomed)
  {
    var h := HistoryOf(db, c);
    var doomed, m := DoomedKeys(h, from), Max(Below(h, from).Keys);
    assert h[m].key !in doomed by {
      assert IsRow(db, c, m, h[m].key);
      forall l | l in h && from <= l
        ensures h[l].key != h[m].key
      {
        assert IsRow(db, c, l, h[l].key);
      }
    }
    assert Logged(LogOf(logs, c), es[0]);
    forall id | id in Referring(db, doomed)
      ensures db.facts[id].client == c
      ensures id in Loose(db, c, from) || h[m].validFrom <= Midnight(db.facts[id].day)
    {
      var l := ParkedFact(db, logs, c, from, es, id);
      if 0 <= m {
        assert RealRows(h)[m].validFrom <= RealRows(h)[l].validFrom;
      }
    }
    RedirectKeepsHeld(db, c, doomed, m, Loose(db, c, from));
  }

  /** Parking onto the throwaway placeholder. */
  lemma ParkOnPlaceholder(db: Db, logs: Logs, c: Client, from: int, es: seq<Event>, a: Attributes)
    requires Reloadable(db, logs, c, from, es) && Below(HistoryOf(db, c), from) == map[]
    ensures var doomed := DoomedKeys(HistoryOf(db, c), from);
      var with := Inject(db, c, InsertPlaceholder(Project(db, c), from, Some(a)));
      var after := with.(facts := Redirect(db.facts, doomed, db.nextKey));
      KeysUnique(after) && FactsAnchored(after) && DeleteAllowed(after, doomed)
  {
    var h := HistoryOf(db, c);
    var doomed := DoomedKeys(h, from);
    var s := InsertPlaceholder(Project(db, c), from, Some(a));
    var with := Inject(db, c, s);
    InjectKeepsKeys(db, c, s, from - 1);
    assert from - 1 !in Below(h, from);
    forall d, l | l in HistoryOf(db, d)
      ensures Persists(db, with, d, l)
    {
    }
    PersistingRowsKeepAnchors(db, with);
    assert db.nextKey !in doomed by {
      forall l | l in h && from <= l
        ensures h[l].key < db.nextKey
      {
        assert IsRow(db, c, l, h[l].key);
      }
    }
    forall id | id in Referring(with, doomed)
      ensures with.facts[id].client == c && BEGINNING_OF_TIME <= Midnight(with.facts[id].day)
    {
      var l := ParkedFact(db, logs, c, from, es, id);
    }
    RedirectKeepsIntegrity(with, c, doomed, from - 1);
  }

  /** What parking does: exactly the facts on the client's rows from the reset point on take the key of
      the highest row below it, or where there is none that of a placeholder just below it, which
      has always held and copies one of those rows.  No other row or column changes. */
  lemma ParkOnTables(db: Db, c: Client, from: int, pick: int)
    requires pick in HistoryOf(db, c) || !NeedsPlaceholder(db, c, from)
    ensures var (after, parking) := Park(db, c, from, pick); var h, g := HistoryOf(db, c), HistoryOf(after, c);
      && after.watermark == db.watermark && after.quarantine == db.quarantine && after.facts.Keys == db.facts.Keys
      && (forall d | d != c :: HistoryOf(after, d) == HistoryOf(db, d))
      && (forall id | id in db.facts ::
            id in parking.parked <==> exists l :: l in h && from <= l && h[l].key == db.facts[id].snapshotKey)
      && (forall id | id in db.facts && id !in parking.parked :: after.facts[id] == db.facts[id])
      && (parking.parked == {} ==> after == db)
      && if parking.parked == {} || exists l :: l in h && l < from then
           g == h && forall id | id in db.facts && id in parking.parked ::
             exists m :: HighestBelow(h, from, m) && after.facts[id] == db.facts[id].(snapshotKey := h[m].key)
         else
           && after.nextKey == db.nextKey + 1 && pick in h
           && g == h[from - 1 := Version(db.nextKey, h[pick].attrs, 0, 253_402_214_400_000_000, false, false)]
           && forall id | id in db.facts && id in parking.parked :: after.facts[id] == db.facts[id].(snapshotKey := db.nextKey)
  {
    var h := HistoryOf(db, c);
    if l :| l in h && l < from {
      assert l in Below(h, from);
      assert forall m | m in h && m < from :: m in Below(h, from);
      assert HighestBelow(h, from, Max(Below(h, from).Keys));
    } else {
      assert Below(h, from) == map[];
    }
  }

  ghost predicate HighestBelow(h: History, from: int, m: int) {
    m in h && m < from && forall l | l in h && l < from :: l <= m
  }

  /** Parking keeps every fact on a version of its own client and clears the way for the tail
      delete. */
  lemma ParkingKeepsIntegrity(db: Db, logs: Logs, c: Client, from: int, es: seq<Event>, pick: int)
    requires Reloadable(db, logs, c, from, es)
    requires pick in HistoryOf(db, c) || !NeedsPlaceholder(db, c, from)
    ensures var after := Park(db, c, from, pick).0;
      && KeysUnique(after) && FactsHeld(after, Loose(db, c, from))
      && DeleteAllowed(after, DoomedKeys(HistoryOf(db, c), from))
  {
    if Referring(db, DoomedKeys(HistoryOf(db, c), from)) == {} {
      AnchoredIsHeld(db);
    } else if Below(HistoryOf(db, c), from) != map[] {
      ParkOnSurvivor(db, logs, c, from, es);
    } else {
      ParkOnPlaceholder(db, logs, c, from, es, HistoryOf(db, c)[pick].attrs);
      AnchoredIsHeld(Park(db, c, from, pick).0);
    }
  }

  /** Seen from the client, parking does nothing but insert the placeholder. */
  lemma ParkingInsertsPlaceholder(db: Db, c: Client, from: int, pick: int)
    requires pick in HistoryOf(db, c) || !NeedsPlaceholder(db, c, from)
    ensures var (after, parking) := Park(db, c, from, pick);
      && Project(after, c) == InsertPlaceholder(Project(db, c), from, parking.placeholder)
      && DoomedKeys(HistoryOf(after, c), from) == DoomedKeys(HistoryOf(db, c), from)
      && (parking.placeholder.Some? ==> Below(HistoryOf(db, c), from) == map[])
  {
    var (after, parking) := Park(db, c, from, pick);
    var h, g := HistoryOf(db, c), HistoryOf(after, c);
    if parking.placeholder.Some? {
      assert from - 1 !in Below(h, from);
      forall k
        ensures k in DoomedKeys(g, from) <==> k in DoomedKeys(h, from)
      {
        if k in DoomedKeys(h, from) {
          var l :| l in h && from <= l && h[l].key == k;
          assert l in g && g[l] == h[l];
        }
      }
    }
  }

  /** What a reset does: the client keeps exactly its rows below the reset point, the highest of them
      open and current again, the others as they were, and its watermark row, where there is one,
      stands just below.  Nothing else changes. */
  lemma ResetOnTables(db: Db, c: Client, from: int)
    ensures var after := ResetClient(db, c, from); var h, g := HistoryOf(db, c), HistoryOf(after, c);
      && after == db.(snapshots := after.snapshots, watermark := after.watermark)
      && (forall d | d != c :: HistoryOf(after, d) == HistoryOf(db, d))
      && after.watermark == (if c in db.watermark then db.watermark[c := from - 1] else db.watermark)
      && (forall l :: l in g <==> l in h && l < from)
      && forall l | l in g :: g[l] ==
           if HighestBelow(h, from, l) then h[l].(validTo := 253_402_214_400_000_000, isCurrent := true) else h[l]
  {
    var kept := Below(HistoryOf(db, c), from);
    if kept != map[] {
      forall l | l in kept
        ensures l == Max(kept.Keys) <==> HighestBelow(HistoryOf(db, c), from, l)
      {
        assert Max(kept.Keys) in kept;
        assert forall m | m in HistoryOf(db, c) && m < from :: m in kept;
      }
    }
  }

  lemma ResetKeepsHeld(db: Db, c: Client, from: int, loose: set<FactId>)
    requires KeysUnique(db) && FactsHeld(db, loose) && DeleteAllowed(db, DoomedKeys(HistoryOf(db, c), from))
    ensures KeysUnique(ResetClient(db, c, from)) && FactsHeld(ResetClient(db, c, from), loose)
  {
    var after := ResetClient(db, c, from);
    var h, g := HistoryOf(db, c), Reset(Project(db, c), from).history;
    forall l | l in g
      ensures l in h && g[l].key == h[l].key && g[l].validFrom == h[l].validFrom
    {
      ResetTouchesOneRow(Project(db, c), from, l);
    }
    InjectKeepsKeys(db, c, Reset(Project(db, c), from), from);
    forall id | id in after.facts
      ensures Held(after, after.facts[id], id in loose)
    {
      var f := db.facts[id];
      var l :| HeldAt(db, f, l, id in loose);
      assert id !in Referring(db, DoomedKeys(h, from));
      if f.client == c {
        assert l < from;
        ResetTouchesOneRow(Project(db, c), from, l);
      }
      assert HeldAt(after, f, l, id in loose);
    }
  }

  lemma {:induction false} HandleOfOne(db: Db, c: Client, es: seq<Event>)
    requires forall i | 0 <= i < |es| :: es[i].client == c
    ensures Project(Handle(db, es), c) == Run(Project(db, c), es)
    ensures Handle(db, es).facts == db.facts
  {
    if es != [] {
      HandleOfOne(db, c, DropLast(es));
      HandleIsStep(Handle(db, DropLast(es)), Last(es));
    }
  }

  lemma {:induction false} HandleOfAnother(db: Db, c: Client, es: seq<Event>, d: Client)
    requires d != c && forall i | 0 <= i < |es| :: es[i].client == c
    ensures HistoryOf(Handle(db, es), d) == HistoryOf(db, d)
    ensures WatermarkOf(Handle(db, es), d) == WatermarkOf(db, d)
  {
    if es != [] {
      HandleOfAnother(db, c, DropLast(es), d);
      HandleKeepsOthers(Handle(db, DropLast(es)), Last(es), d);
    }
  }

  /** The reload as the client sees it, up to the second lookup. */
  lemma TraceRebuilds(tr: Trace, c: Client, from: int, es: seq<Event>, pick: int)
    requires IsRebuild(tr, c, from, es, pick)
    requires forall i | 0 <= i < |es| :: es[i].client == c
    ensures Project(tr.replayed, c) == Rebuild(Project(tr.start, c), from, es, tr.parking.placeholder)
    ensures tr.replayed.facts == tr.parked.facts
  {
    ParkingInsertsPlaceholder(tr.start, c, from, pick);
    HandleOfOne(tr.reset, c, es);
    assert Project(tr.reset, c) == Reset(Project(tr.parked, c), from);
  }

  lemma ParkingLeavesOthers(db: Db, c: Client, from: int, pick: int, d: Client)
    requires pick in HistoryOf(db, c) || !NeedsPlaceholder(db, c, from)
    requires d != c
    ensures HistoryOf(Park(db, c, from, pick).0, d) == HistoryOf(db, d)
    ensures WatermarkOf(Park(db, c, from, pick).0, d) == WatermarkOf(db, d)
  {
  }

  lemma ResetLeavesOthers(db: Db, c: Client, from: int, d: Client)
    requires d != c
    ensures HistoryOf(ResetClient(db, c, from), d) == HistoryOf(db, d)
    ensures WatermarkOf(ResetClient(db, c, from), d) == WatermarkOf(db, d)
  {
  }

  lemma RebuildLeavesOthers(tr: Trace, c: Client, from: int, es: seq<Event>, pick: int, d: Client)
    requires IsRebuild(tr, c, from, es, pick) && d != c
    requires forall i | 0 <= i < |es| :: es[i].client == c
    ensures HistoryOf(tr.replayed, d) == HistoryOf(tr.start, d)
    ensures WatermarkOf(tr.replayed, d) == WatermarkOf(tr.start, d)
  {
    ParkingLeavesOthers(tr.start, c, from, pick, d);
    ResetLeavesOthers(tr.parked, c, from, d);
    HandleOfAnother(tr.reset, c, es, d);
  }

  lemma ReloadableCalls(tr: Trace, logs: Logs, c: Client, from: int, es: seq<Event>, pick: int)
    requires Reloadable(tr.start, logs, c, from, es) && IsRebuild(tr, c, from, es, pick)
    ensures LayeredCall(Project(tr.start, c), LogOf(logs, c), from, es, tr.parking.placeholder)
    ensures tr.parking.placeholder.Some? ==> tr.parking.parked != {}
    ensures tr.parking.parked != {} ==>
      tr.parking.placeholder.Some? || Below(HistoryOf(tr.start, c), from) != map[]
  {
    ParkingInsertsPlaceholder(tr.start, c, from, pick);
    assert Logged(LogOf(logs, c), es[0]);
    if tr.parking.parked != {} {
      var id := Pick(tr.parking.parked);
      var l := ParkedFact(tr.start, logs, c, from, es, id);
      assert l in RealRows(HistoryOf(tr.start, c));
      assert l <= Floor(WatermarkOf(tr.start, c));
    }
  }

  /** No gap: when a parked fact is looked up again, exactly one real row covers its day, and it is
      not the placeholder. */
  lemma NoGap(tr: Trace, logs: Logs, c: Client, from: int, es: seq<Event>, pick: int, id: FactId) returns (l: int)
    requires Reloadable(tr.start, logs, c, from, es) && IsRebuild(tr, c, from, es, pick)
    requires id in tr.parking.parked
    ensures tr.start.facts[id].client == c
    ensures from <= l && Covering(RealRows(HistoryOf(tr.replayed, c)), Midnight(tr.start.facts[id].day)) == {l}
  {
    var f := tr.start.facts[id];
    ReloadableCalls(tr, logs, c, from, es, pick);
    TraceRebuilds(tr, c, from, es, pick);
    var doomed := ParkedFact(tr.start, logs, c, from, es, id);
    assert doomed in LogOf(logs, c) by {
      assert doomed in RealRows(HistoryOf(tr.start, c));
    }
    var i :| 0 <= i < |es| && es[i].lsn == doomed;
    RebuildCovers(Project(tr.start, c), LogOf(logs, c), from, es, tr.parking.placeholder, doomed, i, Midnight(f.day));
    l :| doomed <= l
      && Covering(RealRows(Rebuild(Project(tr.start, c), from, es, tr.parking.placeholder).history), Midnight(f.day)) == {l};
  }

  lemma {:induction false} HandleKeepsFacts(db: Db, es: seq<Event>)
    ensures Handle(db, es).facts == db.facts
  {
    if es != [] {
      HandleKeepsFacts(db, DropLast(es));
      HandleIsStep(Handle(db, DropLast(es)), Last(es));
    }
  }

  /** Parked facts keep their day until they are looked up again. */
  lemma ParkedRowsStay(tr: Trace, c: Client, from: int, es: seq<Event>, pick: int)
    requires IsRebuild(tr, c, from, es, pick)
    ensures tr.parking.parked <= tr.start.facts.Keys == tr.replayed.facts.Keys
    ensures forall id | id in tr.start.facts :: tr.replayed.facts[id].day == tr.start.facts[id].day
  {
    HandleKeepsFacts(tr.reset, es);
    forall id | id in tr.start.facts
      ensures id in tr.parked.facts && tr.parked.facts[id].day == tr.start.facts[id].day
    {
      ParkedFactsKeepDay(tr.start, c, from, pick, id);
    }
  }

  /** Every second lookup finds a row. */
  lemma EveryLookupFinds(tr: Trace, logs: Logs, c: Client, from: int, es: seq<Event>, pick: int)
    requires Reloadable(tr.start, logs, c, from, es) && IsRebuild(tr, c, from, es, pick)
    ensures forall id | id in tr.parking.parked ::
      id in tr.replayed.facts && Covering(HistoryOf(tr.replayed, c), Midnight(tr.replayed.facts[id].day)) != {}
  {
    TraceRebuilds(tr, c, from, es, pick);
    forall id | id in tr.parking.parked
      ensures id in tr.replayed.facts
      ensures Covering(HistoryOf(tr.replayed, c), Midnight(tr.replayed.facts[id].day)) != {}
    {
      var l := NoGap(tr, logs, c, from, es, pick, id);
      ParkedFactsKeepDay(tr.start, c, from, pick, id);
      assert l in Covering(RealRows(HistoryOf(tr.replayed, c)), Midnight(tr.replayed.facts[id].day));
      assert l in Covering(HistoryOf(tr.replayed, c), Midnight(tr.replayed.facts[id].day));
    }
  }

  lemma ParkedFactsKeepDay(db: Db, c: Client, from: int, pick: int, id: FactId)
    requires pick in HistoryOf(db, c) || !NeedsPlaceholder(db, c, from)
    requires id in db.facts
    ensures var after := Park(db, c, from, pick).0;
      id in after.facts && after.facts[id] == db.facts[id].(snapshotKey := after.facts[id].snapshotKey)
  {
  }

  /** What one lookup returned. */
  lemma LookedUp(db: Db, c: Client, parked: set<FactId>, after: Db, id: FactId) returns (l: int)
    requires Reresolved(db, c, parked, after) && id in parked && id in db.facts && db.facts[id].client == c
    ensures id in after.facts && AnchoredAt(after, after.facts[id], l)
    ensures l in Covering(HistoryOf(after, c), Midnight(db.facts[id].day))
    ensures after.facts[id] == db.facts[id].(snapshotKey := after.facts[id].snapshotKey)
    ensures HistoryOf(after, c) == HistoryOf(db, c)
  {
    assert MovedTo(db, c, db.facts[id], after.facts[id]);
    l :| l in Covering(HistoryOf(db, c), Midnight(db.facts[id].day)) && HistoryOf(db, c)[l].key == after.facts[id].snapshotKey;
  }

  /** A parked fact ends on a row that covers its day: a stopgap, or the one real row that does. */
  lemma ParkedFactLands(tr: Trace, logs: Logs, c: Client, from: int, es: seq<Event>, pick: int, id: FactId)
    returns (l: int)
    requires Reloadable(tr.start, logs, c, from, es) && IsReload(tr, c, from, es, pick)
    requires id in tr.parking.parked
    ensures id in tr.resolved.facts && (l < 0 || from <= l) && AnchoredAt(tr.resolved, tr.resolved.facts[id], l)
    ensures id in tr.start.facts && tr.start.facts[id].client == c
    ensures tr.resolved.facts[id] == tr.start.facts[id].(snapshotKey := tr.resolved.facts[id].snapshotKey)
    ensures l in Covering(HistoryOf(tr.resolved, c), Midnight(tr.start.facts[id].day))
  {
    var only := NoGap(tr, logs, c, from, es, pick, id);
    ParkedFactWaits(tr, c, from, es, pick, id);
    l := LookedUp(tr.replayed, c, tr.parking.parked, tr.resolved, id);
    RealAnswer(HistoryOf(tr.replayed, c), Midnight(tr.start.facts[id].day), l, only);
  }

  /** A parked fact when its second lookup comes. */
  lemma ParkedFactWaits(tr: Trace, c: Client, from: int, es: seq<Event>, pick: int, id: FactId)
    requires IsRebuild(tr, c, from, es, pick) && id in tr.parking.parked
    requires forall i | 0 <= i < |es| :: es[i].client == c
    ensures id in tr.start.facts && id in tr.replayed.facts
    ensures tr.replayed.facts[id] == tr.start.facts[id].(snapshotKey := tr.replayed.facts[id].snapshotKey)
  {
    TraceRebuilds(tr, c, from, es, pick);
    ParkedAreReferring(tr, c, from, es, pick);
    ParkedFactsKeepDay(tr.start, c, from, pick, id);
  }

  lemma RealAnswer(h: History, t: int, l: int, only: int)
    requires l in Covering(h, t) && Covering(RealRows(h), t) == {only}
    ensures l < 0 || l == only
  {
    assert 0 <= l ==> l in Covering(RealRows(h), t);
  }

  /** Every second lookup succeeds, and what it returns makes the facts sound again. */
  lemma ReresolvingKeepsIntegrity(tr: Trace, logs: Logs, c: Client, from: int, es: seq<Event>, pick: int)
    requires Reloadable(tr.start, logs, c, from, es) && IsReload(tr, c, from, es, pick)
    requires KeysUnique(tr.replayed) && FactsHeld(tr.replayed, tr.parking.parked)
    ensures KeysUnique(tr.resolved) && FactsAnchored(tr.resolved)
  {
    SameTablesSameKeys(tr.replayed, tr.resolved);
    forall id | id in tr.resolved.facts
      ensures Anchored(tr.resolved, tr.resolved.facts[id])
    {
      if id in tr.parking.parked {
        var l := ParkedFactLands(tr, logs, c, from, es, pick, id);
      } else {
        assert tr.resolved.facts[id] == tr.replayed.facts[id] && Held(tr.replayed, tr.replayed.facts[id], false);
        var m :| HeldAt(tr.replayed, tr.replayed.facts[id], m, false);
        assert AnchoredAt(tr.resolved, tr.resolved.facts[id], m);
      }
    }
  }

  lemma {:induction false} RunKeepsKeys(s: ClientState, es: seq<Event>, l: int)
    requires l in s.history
    ensures l in Run(s, es).history && Run(s, es).history[l].key == s.history[l].key
  {
    if es != [] {
      RunKeepsKeys(s, DropLast(es), l);
      StepIsFresh(Run(s, DropLast(es)), Last(es));
    }
  }

  lemma PlaceholderKey(tr: Trace, c: Client, from: int, es: seq<Event>, pick: int)
    requires IsReload(tr, c, from, es, pick) && tr.parking.placeholder.Some?
    requires forall i | 0 <= i < |es| :: es[i].client == c
    ensures IsRow(tr.resolved, c, from - 1, tr.start.nextKey)
  {
    TraceRebuilds(tr, c, from, es, pick);
    ParkingInsertsPlaceholder(tr.start, c, from, pick);
    ResetPlaceholder(Project(tr.start, c), from, tr.parking.placeholder.value);
    RunKeepsKeys(Reset(InsertPlaceholder(Project(tr.start, c), from, tr.parking.placeholder), from), es, from - 1);
  }

  /** Before the placeholder goes, no fact refers to it any more. */
  lemma PlaceholderUnreferenced(tr: Trace, logs: Logs, c: Client, from: int, es: seq<Event>, pick: int)
    requires Reloadable(tr.start, logs, c, from, es) && IsReload(tr, c, from, es, pick)
    requires KeysUnique(tr.resolved) && tr.parking.placeholder.Some?
    ensures DeleteAllowed(tr.resolved, {tr.start.nextKey})
  {
    UnparkedStay(tr, c, from, es, pick);
    PlaceholderKey(tr, c, from, es, pick);
    forall id | id in tr.resolved.facts
      ensures tr.resolved.facts[id].snapshotKey != tr.start.nextKey
    {
      if id in tr.parking.parked {
        var l := ParkedFactLands(tr, logs, c, from, es, pick, id);
        assert IsRow(tr.resolved, c, l, tr.resolved.facts[id].snapshotKey);
      } else {
        assert Anchored(tr.start, tr.start.facts[id]);
        var m :| AnchoredAt(tr.start, tr.start.facts[id], m);
        assert IsRow(tr.start, tr.start.facts[id].client, m, tr.start.facts[id].snapshotKey);
      }
    }
  }

  lemma UnparkedStay(tr: Trace, c: Client, from: int, es: seq<Event>, pick: int)
    requires IsReload(tr, c, from, es, pick)
    requires forall i | 0 <= i < |es| :: es[i].client == c
    ensures tr.finish.facts == tr.resolved.facts && tr.resolved.facts.Keys == tr.start.facts.Keys
    ensures forall id | id in tr.start.facts && id !in tr.parking.parked :: tr.resolved.facts[id] == tr.start.facts[id]
  {
    TraceRebuilds(tr, c, from, es, pick);
  }

  lemma LooseAreParked(db: Db, c: Client, from: int, pick: int)
    requires pick in HistoryOf(db, c) || !NeedsPlaceholder(db, c, from)
    ensures Loose(db, c, from) <= Park(db, c, from, pick).1.parked
  {
  }

  lemma LooserHeld(db: Db, loose: set<FactId>, looser: set<FactId>)
    requires FactsHeld(db, loose) && loose <= looser
    ensures FactsHeld(db, looser)
  {
    forall id | id in db.facts
      ensures Held(db, db.facts[id], id in looser)
    {
      var l :| HeldAt(db, db.facts[id], l, id in loose);
      assert HeldAt(db, db.facts[id], l, id in looser);
    }
  }

  /** Up to the second lookup. */
  lemma RebuildKeepsIntegrity(tr: Trace, logs: Logs, c: Client, from: int, es: seq<Event>, pick: int)
    requires Reloadable(tr.start, logs, c, from, es) && IsRebuild(tr, c, from, es, pick)
    ensures var loose := Loose(tr.start, c, from);
      FactsHeld(tr.parked, loose) && FactsHeld(tr.reset, loose) && FactsHeld(tr.replayed, loose)
    ensures DeleteAllowed(tr.parked, DoomedKeys(HistoryOf(tr.parked, c), from))
    ensures KeysUnique(tr.replayed)
  {
    var loose := Loose(tr.start, c, from);
    ParkingKeepsIntegrity(tr.start, logs, c, from, es, pick);
    ParkingInsertsPlaceholder(tr.start, c, from, pick);
    ResetKeepsHeld(tr.parked, c, from, loose);
    HandleKeepsHeld(tr.reset, es, loose);
  }

  /** Referential integrity throughout: after every statement group each fact names an existing
      version of its own client, one that had started by its day except for facts parked on a
      stopgap; at the end there is no exception.  Both deletes pass the foreign key check. */
  lemma ReloadKeepsIntegrity(tr: Trace, logs: Logs, c: Client, from: int, es: seq<Event>, pick: int)
    requires Reloadable(tr.start, logs, c, from, es) && IsReload(tr, c, from, es, pick)
    ensures var loose := Loose(tr.start, c, from);
      FactsHeld(tr.parked, loose) && FactsHeld(tr.reset, loose) && FactsHeld(tr.replayed, loose)
    ensures NoStopgap(HistoryOf(tr.start, c)) ==> Loose(tr.start, c, from) == {}
    ensures FactsAnchored(tr.resolved) && FactsAnchored(tr.finish)
    ensures DeleteAllowed(tr.parked, DoomedKeys(HistoryOf(tr.parked, c), from))
    ensures tr.parking.placeholder.Some? ==>
      IsRow(tr.resolved, c, from - 1, tr.start.nextKey) && DeleteAllowed(tr.resolved, {tr.start.nextKey})
    ensures KeysUnique(tr.resolved) && KeysUnique(tr.finish)
  {
    RebuildKeepsIntegrity(tr, logs, c, from, es, pick);
    LooseAreParked(tr.start, c, from, pick);
    LooserHeld(tr.replayed, Loose(tr.start, c, from), tr.parking.parked);
    ReresolvingKeepsIntegrity(tr, logs, c, from, es, pick);
    if tr.parking.placeholder.Some? {
      PlaceholderKey(tr, c, from, es, pick);
      PlaceholderUnreferenced(tr, logs, c, from, es, pick);
      DeletingKeepsIntegrity(tr.resolved, {tr.start.nextKey});
    }
  }

  /** What the last statement of a reload leaves. */
  lemma DroppingRow(db: Db, after: Db, c: Client, x: int, key: int, drop: bool)
    requires after == if drop then DeleteKeys(db, {key}) else db
    requires drop ==> KeysUnique(db) && IsRow(db, c, x, key)
    ensures HistoryOf(after, c) == if drop then HistoryOf(db, c) - {x} else HistoryOf(db, c)
    ensures after.watermark == db.watermark && after.nextKey == db.nextKey && after.facts == db.facts
  {
    if drop {
      DeletingOneRow(db, c, x, key);
    }
  }

  lemma DroppingLeavesOthers(db: Db, after: Db, c: Client, x: int, key: int, drop: bool, d: Client)
    requires after == if drop then DeleteKeys(db, {key}) else db
    requires drop ==> KeysUnique(db) && IsRow(db, c, x, key)
    requires d != c
    ensures HistoryOf(after, d) == HistoryOf(db, d)
  {
    if drop {
      DeletingLeavesOthers(db, c, {key}, d);
    }
  }

  /** The reload of one client: its rows and watermark become what the client-level reload
      says. */
  lemma TraceReloads(tr: Trace, logs: Logs, c: Client, from: int, es: seq<Event>, pick: int)
    requires Reloadable(tr.start, logs, c, from, es) && IsReload(tr, c, from, es, pick)
    ensures Project(tr.finish, c) == Reload(Project(tr.start, c), from, es, tr.parking.placeholder)
  {
    TraceRebuilds(tr, c, from, es, pick);
    ResolvingKeepsRows(tr, c, from, es, pick);
    ReloadKeepsIntegrity(tr, logs, c, from, es, pick);
    DroppingRow(tr.resolved, tr.finish, c, from - 1, tr.start.nextKey, tr.parking.placeholder.Some?);
  }

  lemma ResolvingKeepsRows(tr: Trace, c: Client, from: int, es: seq<Event>, pick: int)
    requires IsReload(tr, c, from, es, pick)
    ensures forall d :: Project(tr.resolved, d) == Project(tr.replayed, d)
    ensures tr.finish == if tr.parking.placeholder.Some? then DeleteKeys(tr.resolved, {tr.start.nextKey}) else tr.resolved
  {
  }

  /** No other client's rows or watermark change. */
  lemma OthersUntouched(tr: Trace, logs: Logs, c: Client, from: int, es: seq<Event>, pick: int, d: Client)
    requires Reloadable(tr.start, logs, c, from, es) && IsReload(tr, c, from, es, pick) && d != c
    ensures HistoryOf(tr.finish, d) == HistoryOf(tr.start, d)
    ensures WatermarkOf(tr.finish, d) == WatermarkOf(tr.start, d)
  {
    RebuildLeavesOthers(tr, c, from, es, pick, d);
    ResolvingKeepsRows(tr, c, from, es, pick);
    assert Project(tr.resolved, d) == Project(tr.replayed, d);
    ReloadKeepsIntegrity(tr, logs, c, from, es, pick);
    DroppingLeavesOthers(tr.resolved, tr.finish, c, from - 1, tr.start.nextKey, tr.parking.placeholder.Some?, d);
  }

  /** Only facts that pointed at rows the reset deletes move, and those are the client's own. */
  lemma OnlyParkedFactsMove(tr: Trace, logs: Logs, c: Client, from: int, es: seq<Event>, pick: int, id: FactId)
    requires Reloadable(tr.start, logs, c, from, es) && IsReload(tr, c, from, es, pick)
    requires id in tr.start.facts
    ensures id in tr.finish.facts
    ensures tr.finish.facts[id] == tr.start.facts[id].(snapshotKey := tr.finish.facts[id].snapshotKey)
    ensures tr.finish.facts[id] != tr.start.facts[id] ==>
      tr.start.facts[id].client == c && tr.start.facts[id].snapshotKey in DoomedKeys(HistoryOf(tr.start, c), from)
  {
    UnparkedStay(tr, c, from, es, pick);
    ParkedAreReferring(tr, c, from, es, pick);
    if id in tr.parking.parked {
      ParkedFactKeepsRest(tr, logs, c, from, es, pick, id);
    }
  }

  lemma ParkedAreReferring(tr: Trace, c: Client, from: int, es: seq<Event>, pick: int)
    requires IsRebuild(tr, c, from, es, pick)
    ensures tr.parking.parked == Referring(tr.start, DoomedKeys(HistoryOf(tr.start, c), from))
  {
  }

  lemma ParkedFactKeepsRest(tr: Trace, logs: Logs, c: Client, from: int, es: seq<Event>, pick: int, id: FactId)
    requires Reloadable(tr.start, logs, c, from, es) && IsReload(tr, c, from, es, pick)
    requires id in tr.parking.parked
    ensures id in tr.start.facts && id in tr.resolved.facts && tr.start.facts[id].client == c
    ensures tr.resolved.facts[id] == tr.start.facts[id].(snapshotKey := tr.resolved.facts[id].snapshotKey)
  {
    var l := ParkedFactLands(tr, logs, c, from, es, pick, id);
  }

  lemma OnlyAnswer(h: History, t: int, l: int)
    requires Disjoint(h) && l in Covering(h, t)
    ensures Covering(h, t) == {l}
  {
    forall m | m in Covering(h, t)
      ensures m == l
    {
    }
  }

  /** Dropping the placeholder leaves the row a moved fact is on. */
  lemma LandedRowRemains(tr: Trace, logs: Logs, c: Client, from: int, es: seq<Event>, pick: int, l: int, t: int)
    requires Reloadable(tr.start, logs, c, from, es) && IsReload(tr, c, from, es, pick)
    requires l in Covering(HistoryOf(tr.resolved, c), t) && (l < 0 || from <= l)
    ensures l in Covering(HistoryOf(tr.finish, c), t)
    ensures HistoryOf(tr.finish, c)[l] == HistoryOf(tr.resolved, c)[l]
  {
    assert Logged(LogOf(logs, c), es[0]);
    FinishDropsPlaceholder(tr, logs, c, from, es, pick);
  }

  lemma FinishDropsPlaceholder(tr: Trace, logs: Logs, c: Client, from: int, es: seq<Event>, pick: int)
    requires Reloadable(tr.start, logs, c, from, es) && IsReload(tr, c, from, es, pick)
    ensures HistoryOf(tr.finish, c) ==
      if tr.parking.placeholder.Some? then HistoryOf(tr.resolved, c) - {from - 1} else HistoryOf(tr.resolved, c)
  {
    ReloadKeepsIntegrity(tr, logs, c, from, es, pick);
    DroppingRow(tr.resolved, tr.finish, c, from - 1, tr.start.nextKey, tr.parking.placeholder.Some?);
  }

  /** When the reload is over, each fact it moved is on a version whose window contains its day,
      the only one unless windows overlap. */
  lemma MovedFactsAreAsOf(tr: Trace, logs: Logs, c: Client, from: int, es: seq<Event>, pick: int, id: FactId)
    returns (l: int)
    requires Reloadable(tr.start, logs, c, from, es) && IsReload(tr, c, from, es, pick)
    requires id in tr.parking.parked
    ensures tr.start.facts[id].client == c
    ensures l in Covering(HistoryOf(tr.finish, c), Midnight(tr.start.facts[id].day)) && (l < 0 || from <= l)
    ensures Disjoint(HistoryOf(tr.finish, c)) ==>
      Covering(HistoryOf(tr.finish, c), Midnight(tr.start.facts[id].day)) == {l}
    ensures id in tr.finish.facts && tr.finish.facts[id].snapshotKey == HistoryOf(tr.finish, c)[l].key
  {
    l := ParkedFactLands(tr, logs, c, from, es, pick, id);
    UnparkedStay(tr, c, from, es, pick);
    LandedRowRemains(tr, logs, c, from, es, pick, l, Midnight(tr.start.facts[id].day));
    if Disjoint(HistoryOf(tr.finish, c)) {
      OnlyAnswer(HistoryOf(tr.finish, c), Midnight(tr.start.facts[id].day), l);
    }
  }

  /** The rows after the replay: survivors with their old keys, the rest with fresh ones. */
  lemma {:induction false} RunDrawsFreshKeys(s: ClientState, es: seq<Event>, l: int)
    requires l in Run(s, es).history
    ensures (l in s.history && Run(s, es).history[l].key == s.history[l].key) || s.nextKey <= Run(s, es).history[l].key
    ensures s.nextKey <= Run(s, es).nextKey
  {
    if es != [] {
      var mid := Run(s, DropLast(es));
      StepIsFresh(mid, Last(es));
      if l in mid.history {
        RunDrawsFreshKeys(s, DropLast(es), l);
      } else {
        KeysGrow(s, DropLast(es));
      }
    }
  }

  lemma {:induction false} KeysGrow(s: ClientState, es: seq<Event>)
    ensures s.nextKey <= Run(s, es).nextKey
  {
    if es != [] {
      KeysGrow(s, DropLast(es));
    }
  }

  lemma NoDoomedKeyReturns(tr: Trace, c: Client, from: int, es: seq<Event>, pick: int, l: int)
    requires KeysUnique(tr.start) && IsRebuild(tr, c, from, es, pick) && l in HistoryOf(tr.replayed, c)
    requires forall i | 0 <= i < |es| :: es[i].client == c
    ensures HistoryOf(tr.replayed, c)[l].key !in DoomedKeys(HistoryOf(tr.start, c), from)
  {
    var h := HistoryOf(tr.start, c);
    var s := InsertPlaceholder(Project(tr.start, c), from, tr.parking.placeholder);
    TraceRebuilds(tr, c, from, es, pick);
    RunDrawsFreshKeys(Reset(s, from), es, l);
    ResetTouchesOneRow(s, from, l);
    forall d | d in h && from <= d
      ensures h[d].key != HistoryOf(tr.replayed, c)[l].key
    {
      assert IsRow(tr.start, c, d, h[d].key);
      if l < from && l in h {
        assert IsRow(tr.start, c, l, h[l].key);
      }
    }
  }

  /** A reload changes a fact's key if and only if the fact was on a row the reset deletes; it
      changes nothing else of it. */
  lemma FactMovesIff(tr: Trace, logs: Logs, c: Client, from: int, es: seq<Event>, pick: int, id: FactId)
    requires Reloadable(tr.start, logs, c, from, es) && IsReload(tr, c, from, es, pick)
    requires id in tr.start.facts
    ensures id in tr.finish.facts
    ensures tr.finish.facts[id] == tr.start.facts[id].(snapshotKey := tr.finish.facts[id].snapshotKey)
    ensures tr.finish.facts[id] != tr.start.facts[id] <==>
      tr.start.facts[id].snapshotKey in DoomedKeys(HistoryOf(tr.start, c), from)
  {
    OnlyParkedFactsMove(tr, logs, c, from, es, pick, id);
    ParkedAreReferring(tr, c, from, es, pick);
    if id in tr.parking.parked {
      UnparkedStay(tr, c, from, es, pick);
      ParkedFactMoves(tr, logs, c, from, es, pick, id);
    }
  }

  lemma ParkedFactMoves(tr: Trace, logs: Logs, c: Client, from: int, es: seq<Event>, pick: int, id: FactId)
    requires Reloadable(tr.start, logs, c, from, es) && IsReload(tr, c, from, es, pick)
    requires id in tr.parking.parked
    ensures id in tr.resolved.facts
    ensures tr.resolved.facts[id].snapshotKey !in DoomedKeys(HistoryOf(tr.start, c), from)
  {
    var l := ParkedFactLands(tr, logs, c, from, es, pick, id);
    NoDoomedKeyReturns(tr, c, from, es, pick, l);
  }
}

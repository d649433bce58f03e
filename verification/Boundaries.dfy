/** Inputs just outside the guarantees: for properties that hold under an exact condition only, a
lifetime or a client state in which the condition fails.
*/
module Boundaries {
  import opened Model
  import opened FiniteSets
  import opened Histories
  import opened ClientCdc
  import opened Lists
  import opened Rewind
  import opened Streaming
  import opened Replay
  import opened ClientReload
  import opened Stopgaps
  import opened StopgapReload
  import opened ReloadAgain
  import opened Database
  import opened StreamRuns
  import opened FactIntegrity
  import opened ReloadSteps
  import opened ReloadRuns
  import opened BaselineSeed
  import opened BaselineRuns
  import opened FactLoad
  import opened Landing
  import opened LandingLogs
  import opened Reachability
  import opened Completion
  import opened Lifetimes

  const C: Client := "C"
  const LOW := Attributes("low", 0, "active")
  const HIGH := Attributes("high", 0, "active")
  const FRESH := Db(map[], map[], [], map[], 0)

  const DELETE_1 := Event(C, 1, 0, Delete)
  const INSERT_1 := Event(C, 1, 0, Insert(LOW))
  const INSERT_2 := Event(C, 2, 0, Insert(LOW))
  const UPDATE_3 := Event(C, 3, 0, Update(HIGH))

  function Deposit(day: int): FactRow {
    FactRow(FactId(FactDeposits, "D"), C, day, "")
  }

  lemma LifeGoesOn(life: seq<World>, w: World)
    requires IsLifetime(life) && Next(life[|life| - 1], w)
    ensures IsLifetime(life + [w])
  {
    var longer := life + [w];
    forall i | 0 <= i < |longer| - 1
      ensures LifeStep(longer, i)
    {
      if i < |life| - 1 {
        assert LifeStep(life, i);
      }
    }
  }

  /** A delivery of one client's events, one by lsn, at the beginning of time. */
  ghost predicate Delivery(es: seq<Event>) {
    AscendingEvents(es) && forall i | 0 <= i < |es| :: es[i].client == C && 0 < es[i].lsn && es[i].commitTs == 0
  }

  lemma {:induction false} DeliveryInOrder(es: seq<Event>)
    requires Delivery(es)
    ensures ListsInOrder(UpsertAll(EMPTY, es), es) && UpsertAll(EMPTY, es).next == |es|
    ensures WellNumbered(UpsertAll(EMPTY, es))
  {
    UpsertAllKeepsNumbers(EMPTY, es);
    if es != [] {
      var init, t := DropLast(es), UpsertAll(EMPTY, DropLast(es));
      DeliveryInOrder(init);
      forall j | 0 <= j < |init|
        ensures KeyOf(init[j]) != KeyOf(Last(es))
      {
        assert es[j].lsn < es[|es| - 1].lsn;
      }
      NotLanded(init, KeyOf(Last(es)));
      OneMoreListed(t, init, Last(es));
      Snoc(es);
    }
  }

  lemma OneMoreListed(t: Table, es: seq<Event>, e: Event)
    requires WellNumbered(t) && ListsInOrder(t, es) && KeyOf(e) !in t.rows
    ensures ListsInOrder(Landing.Upsert(t, e), es + [e])
  {
    var after, more := Landing.Upsert(t, e), es + [e];
    OneMoreHeld(t, es, e);
    OneMoreCovers(t, es, e);
    forall i, j | 0 <= i < j < |more|
      ensures Before(after, KeyOf(more[i]), KeyOf(more[j]))
    {
      OneMoreOrdered(t, es, e, i, j);
    }
  }

  lemma OneMoreHeld(t: Table, es: seq<Event>, e: Event)
    requires ListsInOrder(t, es) && KeyOf(e) !in t.rows
    ensures var after, more := Landing.Upsert(t, e), es + [e];
      forall i | 0 <= i < |more| :: KeyOf(more[i]) in after.rows && after.rows[KeyOf(more[i])].event == more[i]
  {
    assert forall i | 0 <= i < |es| :: (es + [e])[i] == es[i];
  }

  lemma OneMoreOrdered(t: Table, es: seq<Event>, e: Event, i: nat, j: nat)
    requires WellNumbered(t) && ListsInOrder(t, es) && KeyOf(e) !in t.rows && i < j <= |es|
    ensures var after, more := Landing.Upsert(t, e), es + [e];
      KeyOf(more[i]) in after.rows && KeyOf(more[j]) in after.rows && Before(after, KeyOf(more[i]), KeyOf(more[j]))
  {
    assert KeyOf(es[i]) in t.rows && KeyOf(es[i]) != KeyOf(e);
    if j < |es| {
      assert Before(t, KeyOf(es[i]), KeyOf(es[j])) && KeyOf(es[j]) != KeyOf(e);
    }
  }

  lemma OneMoreCovers(t: Table, es: seq<Event>, e: Event)
    requires ListsInOrder(t, es)
    ensures forall k | k in Landing.Upsert(t, e).rows :: exists i :: 0 <= i < |es + [e]| && KeyOf((es + [e])[i]) == k
  {
    var more := es + [e];
    assert KeyOf(more[|es|]) == KeyOf(e);
    forall k | k in t.rows
      ensures exists i :: 0 <= i < |more| && KeyOf(more[i]) == k
    {
      var i :| 0 <= i < |es| && KeyOf(es[i]) == k;
      assert KeyOf(more[i]) == k;
    }
  }

  lemma DeliveryLogOk(es: seq<Event>)
    requires Delivery(es)
    ensures LogsOk(AsLogs(UpsertAll(EMPTY, es)))
  {
    var t := UpsertAll(EMPTY, es);
    DeliveryInOrder(es);
    forall c, l | c in AsLogs(t) && l in AsLogs(t)[c]
      ensures 0 < l && AsLogs(t)[c][l].lsn == l && AsLogs(t)[c][l].commitTs == 0
    {
      LogHasRow(t, c, l);
      var i :| 0 <= i < |es| && KeyOf(es[i]) == EventKey(c, l);
    }
  }

  function Delivered(w: World, es: seq<Event>): World {
    w.(raw := UpsertAll(EMPTY, es))
  }

  function Staged(w: World, es: seq<Event>): World {
    w.(raw := UpsertAll(EMPTY, es), staged := UpsertAll(EMPTY, es))
  }

  /** Landing, staging and streaming a first delivery. */
  lemma FirstDelivery(life: seq<World>, es: seq<Event>) returns (longer: seq<World>)
    requires IsLifetime(life) && Delivery(es)
    requires life[|life| - 1].raw == EMPTY && life[|life| - 1].staged == EMPTY
    ensures IsLifetime(longer) && |longer| == |life| + 3 && life <= longer
    ensures longer[|longer| - 2] == Staged(life[|life| - 1], es)
    ensures Streams(longer[|longer| - 2], longer[|longer| - 1])
    ensures longer[|longer| - 1] == Staged(life[|life| - 1], es).(db := StreamRun(life[|life| - 1].db, es))
    ensures ListsInOrder(Staged(life[|life| - 1], es).staged, es)
  {
    DeliveryInOrder(es);
    var staged := LandsAndStages(life, es);
    longer := StreamAgain(staged, es);
  }

  lemma LandsAndStages(life: seq<World>, es: seq<Event>) returns (longer: seq<World>)
    requires IsLifetime(life) && Delivery(es)
    requires life[|life| - 1].raw == EMPTY && life[|life| - 1].staged == EMPTY
    ensures IsLifetime(longer) && |longer| == |life| + 2 && life <= longer
    ensures longer[|longer| - 1] == Staged(life[|life| - 1], es)
  {
    var w := life[|life| - 1];
    DeliveryLands(w, es);
    LifeGoesOn(life, Delivered(w, es));
    DeliveryInOrder(es);
    assert StagedFrom(Delivered(w, es), es, Staged(w, es));
    LifeGoesOn(life + [Delivered(w, es)], Staged(w, es));
    longer := life + [Delivered(w, es)] + [Staged(w, es)];
  }

  lemma DeliveryLands(w: World, es: seq<Event>)
    requires Delivery(es) && w.raw == EMPTY
    ensures Lands(w, Delivered(w, es))
  {
    DeliveryLogOk(es);
    forall c, l
      ensures l !in LogOf(LogsIn(w), c)
    {
      LogHasRow(EMPTY, c, l);
    }
    assert LandedFrom(w, es, Delivered(w, es));
  }

  lemma FreshLife() returns (life: seq<World>)
    ensures IsLifetime(life) && life == [World(FRESH, EMPTY, EMPTY)]
  {
    life := [World(FRESH, EMPTY, EMPTY)];
  }

  /** The tables after a client without history got its first fact. */
  function OnStopgap(day: int): Db {
    FactLoad.Upsert(Allocate(FRESH, C, Midnight(day)), Deposit(day), 0)
  }

  lemma LoadsOne(life: seq<World>, row: FactRow, after: Db)
    requires IsLifetime(life) && Loaded(life[|life| - 1].db, row, after)
    requires BEGINNING_OF_TIME <= Midnight(row.day) < END_OF_TIME
    ensures IsLifetime(life + [life[|life| - 1].(db := after)])
    ensures LoadsFacts(life[|life| - 1], life[|life| - 1].(db := after))
  {
    var w := life[|life| - 1];
    var trace := [w.db, after];
    assert LoadedAt([row], trace, 0);
    assert LoadedFrom(w, [row], trace) && trace[|[row]|] == after;
    LifeGoesOn(life, w.(db := after));
  }

  /** The seed leaves such a client alone when its log starts with an insert. */
  lemma SeedSkipsInsertFirst(day: int)
    ensures forall c :: c in {C} <==> EarliestOp([CdcRecord(C, 1, InsertOp)], c, InsertOp)
    ensures IsSeedRun(OnStopgap(day), [(C, LOW)], {C}, [], OnStopgap(day))
  {
    var records, profile := [CdcRecord(C, 1, InsertOp)], [(C, LOW)];
    assert EarliestAt(records, 1, C, 0);
    assert profile[0] in profile && Last(profile) == (C, LOW) && DropLast(profile) == [];
    assert Eligible([], {C}) == [] && Eligible(profile, {C}) == [];
    forall c
      ensures Listed([], c) <==> HasStopgap(OnStopgap(day), c) && !Listed(profile, c) && c !in {C}
    {
    }
  }

  /** A client whose log starts with an insert gets no baseline, so a fact that came first leaves a
      stopgap for good.  Streaming its insert, committed before that fact's day, makes a lookup with
      two answers. */
  lemma InsertFirstClientIsAmbiguous(day: int) returns (life: seq<World>)
    requires BEGINNING_OF_TIME <= Midnight(day) < END_OF_TIME
    ensures IsLifetime(life) && |life| == 6 && LoadsFacts(life[0], life[1]) && Seeds(life[1], life[2])
    ensures Streams(life[4], life[5]) && !Disjoint(HistoryOf(life[5].db, C))
  {
    var unseeded := UnseededLife(day);
    assert Delivery([INSERT_1]);
    life := FirstDelivery(unseeded, [INSERT_1]);
    assert life[0] == unseeded[0] && life[1] == unseeded[1] && life[2] == unseeded[2];
    AlwaysOk(life, 4);
    StreamsIntoStopgap(life[4], life[5], day);
  }

  /** The first fact makes a stopgap and the seed leaves it. */
  lemma UnseededLife(day: int) returns (life: seq<World>)
    requires BEGINNING_OF_TIME <= Midnight(day) < END_OF_TIME
    ensures IsLifetime(life) && |life| == 3 && LoadsFacts(life[0], life[1]) && Seeds(life[1], life[2])
    ensures life[2] == World(OnStopgap(day), EMPTY, EMPTY)
  {
    var start := FreshLife();
    var w := World(OnStopgap(day), EMPTY, EMPTY);
    assert HistoryOf(FRESH, C) == map[];
    assert Loaded(FRESH, Deposit(day), OnStopgap(day));
    LoadsOne(start, Deposit(day), OnStopgap(day));
    SeedSkipsInsertFirst(day);
    assert Seeds(w, w);
    LifeGoesOn(start + [w], w);
    life := start + [w] + [w];
  }

  lemma StreamsIntoStopgap(w: World, w': World, day: int)
    requires BEGINNING_OF_TIME <= Midnight(day) && WorldOk(w) && w.db == OnStopgap(day)
    requires ListsInOrder(w.staged, [INSERT_1]) && w' == w.(db := StreamRun(w.db, [INSERT_1]))
    ensures !Disjoint(HistoryOf(w'.db, C))
  {
    assert StreamedFrom(w, [INSERT_1], w');
    StreamingKeepsShape(w, [INSERT_1], w', C);
    StopgapInTheWay(w, day);
  }

  lemma StopgapInTheWay(w: World, day: int)
    requires BEGINNING_OF_TIME <= Midnight(day) && w.db == OnStopgap(day)
    ensures !StreamsApart(w, [INSERT_1], C)
  {
    var es := [INSERT_1];
    var h := HistoryOf(w.db, C);
    assert h == map[-1 := Stopgap(0, Midnight(day))];
    assert RealRows(h) == map[];
    assert DropLast(es) == [] && Last(es) == INSERT_1;
    assert Selected(w.db, []) == [] && Selected(w.db, es) == es;
    assert OfClient([], C) == [] && OfClient(es, C) == es;
    assert FirstAbove(es, 0, 0);
    assert h[-1].validTo > 0;
  }

  /** The values a tombstone carries depend on arrival order: the client raised to high and then
      deleted keeps low if the delete arrives first. */
  lemma TombstoneDependsOnOrder(raise: Event, delete: Event)
    requires raise.change == Update(HIGH) && delete.change == Delete && 0 < raise.lsn < delete.lsn
    ensures var inOrder, reversed := Run(SeededLow(), [raise, delete]).history, Run(SeededLow(), [delete, raise]).history;
      && delete.lsn in inOrder && inOrder[delete.lsn].attrs.category == "high"
      && delete.lsn in reversed && reversed[delete.lsn].attrs.category == "low"
  {
    var s := SeededLow();
    RunOfTwo(s, raise, delete);
    RunOfTwo(s, delete, raise);
    assert EndDate(s.history, raise.commitTs).Keys == {0} && EndDate(s.history, delete.commitTs).Keys == {0};
    var h := Step(s, raise).history;
    assert h.Keys == {0, raise.lsn} && h[raise.lsn].attrs == HIGH;
    assert EndDate(h, delete.commitTs).Keys == {0, raise.lsn};
    assert Max({0, raise.lsn}) == raise.lsn;
  }

  /** A client seeded as low risk. */
  function SeededLow(): ClientState {
    ClientState(map[0 := Version(0, LOW, BEGINNING_OF_TIME, END_OF_TIME, true, false)], None, 1)
  }

  lemma RunOfTwo(s: ClientState, a: Event, b: Event)
    ensures Run(s, [a, b]) == Step(Step(s, a), b)
  {
    RunFirst(s, [a, b]);
    RunFirst(Step(s, a), [b]);
    assert [a, b][1..] == [b] && [b][1..] == [];
    assert Run(Step(Step(s, a), b), []) == Step(Step(s, a), b);
  }

  lemma StreamAgain(life: seq<World>, es: seq<Event>) returns (longer: seq<World>)
    requires IsLifetime(life) && ListsInOrder(life[|life| - 1].staged, es)
    ensures IsLifetime(longer) && |longer| == |life| + 1 && life <= longer
    ensures Streams(longer[|life| - 1], longer[|life|])
    ensures longer[|life|] == life[|life| - 1].(db := StreamRun(life[|life| - 1].db, es))
  {
    var w := life[|life| - 1];
    var again := w.(db := StreamRun(w.db, es));
    assert StreamedFrom(w, es, again);
    LifeGoesOn(life, again);
    longer := life + [again];
  }

  const BARE := Rejection(DeleteWithNoBaseline, C, 1, Delete)

  lemma BareDeleteArrives() returns (life: seq<World>)
    ensures IsLifetime(life) && |life| == 4 && Streams(life[2], life[3])
    ensures life[3].db == FRESH.(quarantine := [BARE]) && ListsInOrder(life[3].staged, [DELETE_1])
  {
    var start := FreshLife();
    assert Delivery([DELETE_1]);
    life := FirstDelivery(start, [DELETE_1]);
    StreamOfBareDelete(FRESH);
  }

  /** A delete with nothing to delete is selected and quarantined on every run. */
  lemma BareDeleteComesBack() returns (life: seq<World>)
    ensures IsLifetime(life) && |life| == 5 && Streams(life[2], life[3]) && Streams(life[3], life[4])
    ensures life[3].db == FRESH.(quarantine := [BARE]) && life[4].db == FRESH.(quarantine := [BARE, BARE])
  {
    var first := BareDeleteArrives();
    StreamOfBareDelete(first[3].db);
    life := StreamAgain(first, [DELETE_1]);
    assert life[2] == first[2] && life[3] == first[3];
  }

  lemma StreamOfBareDelete(db: Db)
    requires db.snapshots == map[] && db.watermark == map[]
    ensures StreamRun(db, [DELETE_1]) ==
      db.(quarantine := db.quarantine + [BARE])
  {
    var es := [DELETE_1];
    assert DropLast(es) == [] && Last(es) == DELETE_1;
    assert Selected(db, []) == [] && Selected(db, es) == es;
    assert Handle(db, []) == db && Handle(db, es) == HandleEvent(db, DELETE_1);
  }

  /** A client that came back: its log starts with a delete, its one row is the insert after it, and
      it has a fact there. */
  function CameBack(day: int): Db {
    FactLoad.Upsert(StreamRun(FRESH, [DELETE_1, INSERT_2]), Deposit(day), 0)
  }

  lemma StreamOfComeback()
    ensures var db := StreamRun(FRESH, [DELETE_1, INSERT_2]);
      && db.snapshots == map[C := map[2 := Opened(0, LOW, INSERT_2)]]
      && db.facts == map[] && db.nextKey == 1
  {
    var es := [DELETE_1, INSERT_2];
    assert DropLast(es) == [DELETE_1] && Last(es) == INSERT_2;
    assert DropLast([DELETE_1]) == [] && Last([DELETE_1]) == DELETE_1;
    assert Selected(FRESH, []) == [] && Selected(FRESH, [DELETE_1]) == [DELETE_1] && Selected(FRESH, es) == es;
    var mid := HandleEvent(FRESH, DELETE_1);
    assert Handle(FRESH, []) == FRESH && Handle(FRESH, [DELETE_1]) == mid;
    assert Handle(FRESH, es) == HandleEvent(mid, INSERT_2);
    assert EndDate(map[], 0) == map[];
    assert HistoryOf(mid, C) == map[] && WatermarkOf(mid, C) == None;
  }

  lemma ComebackIsReached(day: int) returns (life: seq<World>)
    requires BEGINNING_OF_TIME <= Midnight(day) < END_OF_TIME
    ensures IsLifetime(life) && |life| == 5 && LoadsFacts(life[3], life[4])
    ensures life[3].db == StreamRun(FRESH, [DELETE_1, INSERT_2])
    ensures life[4] == World(CameBack(day), UpsertAll(EMPTY, [DELETE_1, INSERT_2]), UpsertAll(EMPTY, [DELETE_1, INSERT_2]))
  {
    var es := [DELETE_1, INSERT_2];
    life := FreshLife();
    life := FirstDelivery(life, es);
    StreamOfComeback();
    var db := StreamRun(FRESH, es);
    assert HistoryOf(db, C) == map[2 := Opened(0, LOW, INSERT_2)];
    assert 2 in Covering(HistoryOf(db, C), Midnight(day));
    assert Loaded(db, Deposit(day), CameBack(day));
    LoadsOne(life, Deposit(day), CameBack(day));
    life := life + [life[3].(db := CameBack(day))];
  }

  lemma DeliveryLog(es: seq<Event>, i: nat)
    requires Delivery(es) && i < |es|
    ensures var log := LogOf(AsLogs(UpsertAll(EMPTY, es)), C);
      es[i].lsn in log && log[es[i].lsn] == es[i]
  {
    DeliveryInOrder(es);
    LogHasRow(UpsertAll(EMPTY, es), C, es[i].lsn);
    assert KeyOf(es[i]) == EventKey(C, es[i].lsn);
  }

  lemma DeliveryLogOnly(es: seq<Event>, l: int)
    requires Delivery(es) && l in LogOf(AsLogs(UpsertAll(EMPTY, es)), C)
    ensures exists i :: 0 <= i < |es| && es[i].lsn == l
  {
    var t := UpsertAll(EMPTY, es);
    DeliveryInOrder(es);
    LogHasRow(t, C, l);
    var i :| 0 <= i < |es| && KeyOf(es[i]) == EventKey(C, l);
    assert es[i].lsn == l;
  }

  lemma ComebackLog(raw: Table)
    requires raw == UpsertAll(EMPTY, [DELETE_1, INSERT_2])
    ensures LogOf(AsLogs(raw), C) == map[1 := DELETE_1, 2 := INSERT_2]
  {
    var es := [DELETE_1, INSERT_2];
    DeliveryLog(es, 0);
    DeliveryLog(es, 1);
    forall l | l in LogOf(AsLogs(raw), C)
      ensures l == 1 || l == 2
    {
      DeliveryLogOnly(es, l);
    }
  }

  lemma ComebackResets(raw: Table, fromTs: int, toTs: int)
    requires raw == UpsertAll(EMPTY, [DELETE_1, INSERT_2]) && fromTs <= 0 < toTs
    ensures C in Affected(AsLogs(raw), fromTs, toTs) && ResetPoint(AsLogs(raw), C, fromTs, toTs) == 1
    ensures 1 in AsLogs(raw)[C] && AsLogs(raw)[C][1] == DELETE_1
  {
    ComebackLog(raw);
    var log := LogOf(AsLogs(raw), C);
    assert LogOk(log);
    assert 1 in log && 2 in log;
    ReplaysFromWindowOn(AsLogs(raw), C, fromTs, toTs);
  }

  lemma ComebackNeedsPlaceholder(day: int)
    ensures NeedsPlaceholder(CameBack(day), C, 1)
  {
    StreamOfComeback();
    var db := CameBack(day);
    var h := HistoryOf(db, C);
    assert 2 in h && h[2].key == 0;
    assert 0 in DoomedKeys(h, 1) && db.facts[Deposit(day).id].snapshotKey == 0;
    assert Deposit(day).id in Referring(db, DoomedKeys(h, 1));
    assert Below(h, 1) == map[];
  }

  lemma InLsnOrderNoTombstone()
    ensures 1 !in Run(ClientState(map[], None, 0), [DELETE_1, INSERT_2]).history
  {
    RunOfTwo(ClientState(map[], None, 0), DELETE_1, INSERT_2);
    assert EndDate(map[], 0) == map[];
  }

  /** The placeholder's trace: whichever way that client is reloaded from its delete on, it ends with
      a tombstone for a delete that applying its log in lsn order does not give. */
  lemma PlaceholderLeavesTombstone(day: int, w: World, end: Db, fromTs: int, toTs: int,
                                   clients: seq<Client>, traces: seq<Trace>, picks: seq<int>)
    requires BEGINNING_OF_TIME <= Midnight(day) < END_OF_TIME
    requires w == World(CameBack(day), UpsertAll(EMPTY, [DELETE_1, INSERT_2]), UpsertAll(EMPTY, [DELETE_1, INSERT_2]))
    requires IsWholeRun(w.db, end, LogsIn(w), fromTs, toTs, clients, traces, picks) && fromTs <= 0 < toTs
    ensures HasVersion(HistoryOf(end, C), DELETE_1)
    ensures 1 !in Run(ClientState(map[], None, 0), [DELETE_1, INSERT_2]).history
  {
    var life := ComebackIsReached(day);
    AlwaysOk(life, 4);
    WorldIsReady(w, fromTs, toTs);
    ComebackResets(w.raw, fromTs, toTs);
    ComebackNeedsPlaceholder(day);
    WindowIsRepairedIff(w.db, end, LogsIn(w), fromTs, toTs, clients, traces, picks, C, 1);
    InLsnOrderNoTombstone();
  }

  /** A lifetime goes on with a reload of any window. */
  lemma ReloadNow(life: seq<World>, fromTs: int, toTs: int)
    returns (longer: seq<World>, clients: seq<Client>, traces: seq<Trace>, picks: seq<int>)
    requires IsLifetime(life)
    ensures IsLifetime(longer) && |longer| == |life| + 1 && life <= longer
    ensures ReloadedFrom(life[|life| - 1], fromTs, toTs, clients, traces, picks, longer[|life|])
  {
    var w := life[|life| - 1];
    AlwaysOk(life, |life| - 1);
    WorldIsReady(w, fromTs, toTs);
    var end;
    end, clients, traces, picks := WholeRunCompletes(w.db, LogsIn(w), fromTs, toTs, map[]);
    assert ReloadedFrom(w, fromTs, toTs, clients, traces, picks, w.(db := end));
    LifeGoesOn(life, w.(db := end));
    longer := life + [w.(db := end)];
  }

  /** A whole lifetime of that client up to its reload: it does not end with the rows its log gives
      when applied once to the rows it started from. */
  lemma ComebackDiverges(day: int)
    returns (life: seq<World>, clients: seq<Client>, traces: seq<Trace>, picks: seq<int>)
    requires BEGINNING_OF_TIME <= Midnight(day) < END_OF_TIME
    ensures IsLifetime(life) && FullReload(life, 4, 0, 1, clients, traces, picks, C)
    ensures Begun(life[3], C) && LoadsFacts(life[3], life[4])
    ensures !SameContent(HistoryOf(life[5].db, C), LogAppliedOnce(life, 3, 4, 0, 1, C).history)
  {
    var reached := ComebackIsReached(day);
    life, clients, traces, picks := ReloadNow(reached, 0, 1);
    assert life[3] == reached[3] && life[4] == reached[4];
    ComebackResets(life[4].raw, 0, 1);
    ComebackLog(life[4].raw);
    assert FullReload(life, 4, 0, 1, clients, traces, picks, C);
    ComebackHasBegun(life[3]);
    ReloadOfComeback(day, life, clients, traces, picks);
  }

  lemma ReloadOfComeback(day: int, life: seq<World>, clients: seq<Client>, traces: seq<Trace>, picks: seq<int>)
    requires IsLifetime(life) && FullReload(life, 4, 0, 1, clients, traces, picks, C) && Begun(life[3], C)
    requires life[4].db == CameBack(day) && life[4].raw == UpsertAll(EMPTY, [DELETE_1, INSERT_2])
    ensures !SameContent(HistoryOf(life[5].db, C), LogAppliedOnce(life, 3, 4, 0, 1, C).history)
  {
    ComebackResets(life[4].raw, 0, 1);
    ComebackNeedsPlaceholder(day);
    DivergesAfter(life, clients, traces, picks);
  }

  lemma DivergesAfter(life: seq<World>, clients: seq<Client>, traces: seq<Trace>, picks: seq<int>)
    requires IsLifetime(life) && FullReload(life, 4, 0, 1, clients, traces, picks, C) && Begun(life[3], C)
    requires var from := ResetPoint(LogsIn(life[4]), C, 0, 1);
      NeedsPlaceholder(life[4].db, C, from) && LogsIn(life[4])[C][from].change.Delete?
    ensures !SameContent(HistoryOf(life[5].db, C), LogAppliedOnce(life, 3, 4, 0, 1, C).history)
  {
    assert SettledStep(life, C, 3);
    LifetimeConvergesIff(life, 3, 4, 0, 1, clients, traces, picks, C);
  }

  lemma ComebackHasBegun(w: World)
    requires w.db == StreamRun(FRESH, [DELETE_1, INSERT_2])
    ensures Begun(w, C)
  {
    StreamOfComeback();
    assert 2 in RealRows(HistoryOf(w.db, C));
  }

  /** The insert redelivered as a delete. */
  const DELETE_2 := Event(C, 2, 0, Delete)

  lemma OneInsertStreamed()
    ensures StreamRun(FRESH, [INSERT_2]) ==
      FRESH.(snapshots := map[C := map[2 := Opened(0, LOW, INSERT_2)]], watermark := map[C := 2], nextKey := 1)
  {
    var es := [INSERT_2];
    assert DropLast(es) == [] && Last(es) == INSERT_2;
    assert Selected(FRESH, []) == [] && Selected(FRESH, es) == es;
    assert Handle(FRESH, []) == FRESH && Handle(FRESH, es) == HandleEvent(FRESH, INSERT_2);
    assert EndDate(map[], 0) == map[];
  }

  lemma OneEventLog(raw: Table, e: Event)
    requires raw.rows.Keys == {EventKey(C, 2)} && raw.rows[EventKey(C, 2)].event == e && e.lsn == 2 && e.commitTs == 0
    ensures LogsOk(AsLogs(raw)) && LogOf(AsLogs(raw), C) == map[2 := e]
    ensures forall c | c != C :: LogOf(AsLogs(raw), c) == map[]
  {
    forall c, l
      ensures l in LogOf(AsLogs(raw), c) <==> c == C && l == 2
      ensures c == C && l == 2 ==> LogOf(AsLogs(raw), c)[l] == e
    {
      LogHasRow(raw, c, l);
    }
    forall c | c in AsLogs(raw)
      ensures LogOk(AsLogs(raw)[c])
    {
      assert LogOf(AsLogs(raw), c) == AsLogs(raw)[c];
    }
  }

  lemma OneRow(t: Table, e: Event)
    requires t.rows.Keys <= {KeyOf(e)}
    ensures UpsertAll(t, [e]) == Landing.Upsert(t, e)
    ensures UpsertAll(t, [e]).rows.Keys == {KeyOf(e)} && UpsertAll(t, [e]).rows[KeyOf(e)].event == e
  {
    assert DropLast([e]) == [] && Last([e]) == e;
    assert UpsertAll(t, []) == t;
  }

  /** The insert is corrected to a delete: a delivery like any other. */
  lemma Redelivered(w: World)
    requires w.raw == UpsertAll(EMPTY, [INSERT_2])
    ensures var w' := w.(raw := UpsertAll(w.raw, [DELETE_2]));
      Lands(w, w') && LogOf(LogsIn(w'), C) == map[2 := DELETE_2]
  {
    var w' := w.(raw := UpsertAll(w.raw, [DELETE_2]));
    OneRow(EMPTY, INSERT_2);
    OneRow(w.raw, DELETE_2);
    OneEventLog(w.raw, INSERT_2);
    OneEventLog(w'.raw, DELETE_2);
    OneEventGrows(LogsIn(w), LogsIn(w'));
    assert LandedFrom(w, [DELETE_2], w');
  }

  lemma OneEventGrows(raw: Logs, more: Logs)
    requires LogsOk(more) && LogOf(raw, C) == map[2 := INSERT_2] && LogOf(more, C) == map[2 := DELETE_2]
    requires forall c | c != C :: LogOf(raw, c) == map[]
    ensures LogsGrow(raw, more)
  {
  }

  lemma OneOfAKind(es: seq<Event>, e: Event)
    requires es != [] && AscendingEvents(es) && forall i | 0 <= i < |es| :: es[i] == e
    ensures es == [e]
  {
    var i, j := 0, |es| - 1;
    assert i < j ==> es[i].lsn < es[j].lsn;
  }

  lemma OneDeleteReplayed(raw: Logs)
    requires LogsOk(raw) && LogOf(raw, C) == map[2 := DELETE_2]
    ensures C in Affected(raw, 0, 1) && ResetPoint(raw, C, 0, 1) == 2 && EventsFrom(raw, C, 2) == [DELETE_2]
  {
    ReplaysFromWindowOn(raw, C, 0, 1);
    var es := EventsFrom(raw, C, 2);
    EventsFromLog(raw, C, 2);
    forall i | 0 <= i < |es|
      ensures es[i] == DELETE_2
    {
      EventOfLog(raw, C, 2, i);
    }
    OneOfAKind(es, DELETE_2);
  }

  /** A watermark without rows: an insert is streamed, redelivered as a delete and reloaded.  The
      reload deletes the row and rolls the watermark back to 1, and the delete then finds nothing. */
  lemma RedeliveryStripsClient() returns (life: seq<World>)
    ensures IsLifetime(life) && |life| == 6 && Lands(life[3], life[4]) && Reloads(life[4], life[5])
    ensures HistoryOf(life[5].db, C) == map[] && WatermarkOf(life[5].db, C) == Some(1)
    ensures !RowsOrFresh(Project(life[5].db, C))
  {
    var corrected := CorrectedLife();
    var clients, traces, picks;
    life, clients, traces, picks := ReloadNow(corrected, 0, 1);
    assert life[3] == corrected[3] && life[4] == corrected[4];
    AlwaysOk(corrected, 4);
    StrippingReload(corrected[4], life[5], clients, traces, picks);
  }

  lemma CorrectedLife() returns (life: seq<World>)
    ensures IsLifetime(life) && |life| == 5 && Lands(life[3], life[4])
    ensures LogOf(LogsIn(life[4]), C) == map[2 := DELETE_2] && life[4].db == StreamRun(FRESH, [INSERT_2])
  {
    var start := FreshLife();
    assert Delivery([INSERT_2]);
    life := FirstDelivery(start, [INSERT_2]);
    var w := life[3].(raw := UpsertAll(life[3].raw, [DELETE_2]));
    Redelivered(life[3]);
    LifeGoesOn(life, w);
    life := life + [w];
  }

  lemma StrippingReload(w: World, w': World, clients: seq<Client>, traces: seq<Trace>, picks: seq<int>)
    requires WorldOk(w) && LogOf(LogsIn(w), C) == map[2 := DELETE_2] && w.db == StreamRun(FRESH, [INSERT_2])
    requires ReloadedFrom(w, 0, 1, clients, traces, picks, w')
    ensures HistoryOf(w'.db, C) == map[] && WatermarkOf(w'.db, C) == Some(1)
  {
    OneInsertStreamed();
    ReloadWithoutFacts(w, w', clients, traces, picks);
    NothingReplayed(Reset(Project(w.db, C), 2));
  }

  lemma ReloadWithoutFacts(w: World, w': World, clients: seq<Client>, traces: seq<Trace>, picks: seq<int>)
    requires WorldOk(w) && LogOf(LogsIn(w), C) == map[2 := DELETE_2] && w.db.facts == map[]
    requires ReloadedFrom(w, 0, 1, clients, traces, picks, w')
    ensures Similar(Project(w'.db, C), Run(Reset(Project(w.db, C), 2), [DELETE_2]))
  {
    OneDeleteReplayed(LogsIn(w));
    WorldIsReady(w, 0, 1);
    var n :| 0 <= n < |clients| && clients[n] == C;
    assert Referring(w.db, DoomedKeys(HistoryOf(w.db, C), 2)) == {};
    ReloadedInOrderIff(w.db, LogsIn(w), 0, 1, clients, traces, picks, n);
  }

  lemma NothingReplayed(p: ClientState)
    requires p.history == map[]
    ensures Run(p, [DELETE_2]) == p
  {
    RunFirst(p, [DELETE_2]);
    assert [DELETE_2][1..] == [] && Run(p, []) == p;
  }

  /** The log of a client deleted, inserted as low risk and raised to high. */
  function RaisedLog(): Log {
    map[1 := DELETE_1, 2 := INSERT_2, 3 := UPDATE_3]
  }

  /** That client as streamed: its delete found nothing. */
  function Raised(): ClientState {
    Run(ClientState(map[], None, 0), [DELETE_1, INSERT_2, UPDATE_3])
  }

  lemma RaisedRows()
    ensures Raised().history.Keys == {2, 3} && Raised().watermark == Some(3)
    ensures Raised().history[2].attrs == LOW && Raised().history[3].attrs == HIGH
  {
    var none, es := ClientState(map[], None, 0), [DELETE_1, INSERT_2, UPDATE_3];
    RunFirst(none, es);
    assert es[1..] == [INSERT_2, UPDATE_3];
    RunOfTwo(none, INSERT_2, UPDATE_3);
    assert EndDate(map[], 0) == map[];
    var mid := Step(none, INSERT_2);
    assert mid.history.Keys == {2} && EndDate(mid.history, 0).Keys == {2};
  }

  lemma RaisedIsLayered()
    ensures LogOk(RaisedLog()) && AllLogged(RaisedLog(), [DELETE_1, INSERT_2, UPDATE_3])
    ensures Layered(Raised(), RaisedLog())
  {
    var none, es := ClientState(map[], None, 0), [DELETE_1, INSERT_2, UPDATE_3];
    assert Settled(none, RaisedLog());
    RunKeepsSettled(none, RaisedLog(), es);
    SettledIsLayered(Raised(), RaisedLog());
  }

  /** Reloading twice is not reloading once: the first reload copies the client's low row, the second
      its high one, and the tombstone changes with it. */
  lemma SecondReloadDiffers()
    ensures 2 in Raised().history && Raised().history[2].attrs == LOW
    ensures var es := [DELETE_1, INSERT_2, UPDATE_3];
      var once := Reload(Raised(), 1, es, Some(LOW));
      && LayeredCall(Raised(), RaisedLog(), 1, es, Some(LOW))
      && 3 in once.history && once.history[3].attrs == HIGH
      && !Similar(Reload(once, 1, es, Some(HIGH)), once)
  {
    var es := [DELETE_1, INSERT_2, UPDATE_3];
    RaisedRows();
    RaisedCall();
    RepeatCopyingEvent(Raised(), RaisedLog(), 1, es, LOW, 2);
    ReloadLandsIff(Raised(), RaisedLog(), 1, es, Some(LOW), 2);
  }

  lemma RaisedCall()
    ensures LayeredCall(Raised(), RaisedLog(), 1, [DELETE_1, INSERT_2, UPDATE_3], Some(LOW))
  {
    RaisedIsLayered();
    RaisedAboveNothing();
    RaisedInOrder();
    CallAboveNothing(Raised(), RaisedLog(), [DELETE_1, INSERT_2, UPDATE_3]);
  }

  lemma RaisedAboveNothing()
    ensures Raised().watermark.Some? && forall l | l in Raised().history :: 1 <= l
  {
    RaisedRows();
  }

  lemma RaisedInOrder()
    ensures AscendingEvents([DELETE_1, INSERT_2, UPDATE_3])
  {
  }

  lemma CallAboveNothing(s: ClientState, log: Log, es: seq<Event>)
    requires LogOk(log) && Layered(s, log) && AllLogged(log, es) && AscendingEvents(es) && es != [] && es[0].lsn == 1
    requires s.watermark.Some? && forall l | l in s.history :: 1 <= l
    ensures LayeredCall(s, log, 1, es, Some(LOW))
  {
    assert Below(s.history, 1) == map[];
  }

  /** A client with stopgaps for two days, the earlier day first. */
  function TwoStopgaps(day: int, later: int): ClientState {
    ClientState(map[-1 := Stopgap(0, Midnight(day)), -2 := Stopgap(1, Midnight(later))], None, 2)
  }

  lemma TwoStopgapsLayered(day: int, later: int, e: Event)
    requires BEGINNING_OF_TIME <= Midnight(day) < Midnight(later) < e.commitTs < END_OF_TIME && e.lsn == 1
    ensures Layered(TwoStopgaps(day, later), map[1 := e]) && Disjoint(TwoStopgaps(day, later).history)
    ensures StopgapRows(TwoStopgaps(day, later).history) == TwoStopgaps(day, later).history
    ensures RealRows(TwoStopgaps(day, later).history) == map[] && LogOk(map[1 := e])
    ensures EndedBy(TwoStopgaps(day, later).history, e.commitTs)
  {
  }

  lemma StreamedOverTwo(day: int, later: int, e: Event)
    requires BEGINNING_OF_TIME <= Midnight(day) < Midnight(later) < e.commitTs < END_OF_TIME && e.lsn == 1
    ensures var t := Run(TwoStopgaps(day, later), [e]);
      && Layered(t, map[1 := e]) && Disjoint(t.history)
      && StopgapRows(t.history) == TwoStopgaps(day, later).history && RealRows(t.history).Keys == {1}
  {
    var s, t := TwoStopgaps(day, later), Run(TwoStopgaps(day, later), [e]);
    var log: Log := map[1 := e];
    TwoStopgapsLayered(day, later, e);
    assert AllLogged(log, [e]);
    RunKeepsLayered(s, log, [e]);
    SameStopgapsSameEnds(s.history, t.history, 0);
    RunFirst(s, [e]);
    assert [e][1..] == [] && Run(Step(s, e), []) == Step(s, e);
    assert -1 in s.history;
    StepOverStopgaps(s, log, e);
    StreamKeepsDisjointIff(s, log, [e]);
  }

  /** The reset reopens the earlier day's stopgap and the replay closes it at the first event only:
      the windows were disjoint and no longer are. */
  lemma ReloadWidensStopgap(day: int, later: int, e: Event)
    requires BEGINNING_OF_TIME <= Midnight(day) < Midnight(later) < e.commitTs < END_OF_TIME && e.lsn == 1
    ensures var t := Run(TwoStopgaps(day, later), [e]);
      Disjoint(t.history) && !Disjoint(Reload(t, 1, [e], None).history)
  {
    var t := Run(TwoStopgaps(day, later), [e]);
    StreamedOverTwo(day, later, e);
    TwoStopgapsLayered(day, later, e);
    NoSurvivorOverTwo(t.history);
    assert -1 in TwoStopgaps(day, later).history;
    TwoStopgapsMeet(t.history, day, later);
    ReloadOverStopgapsIff(t, map[1 := e], 1, [e]);
  }

  lemma NoSurvivorOverTwo(h: History)
    requires RealRows(h).Keys == {1}
    ensures !RealSurvivor(h, 1)
  {
  }

  lemma TwoStopgapsMeet(h: History, day: int, later: int)
    requires day < later && StopgapRows(h) == TwoStopgaps(day, later).history && StopgapRows(h) != map[]
    ensures !EndedBy(Others(h), TopStart(h))
  {
    assert StopgapRows(h).Keys == {-1, -2} && Max({-1, -2}) == -1;
    assert -2 in Others(h) && Others(h)[-2].validTo > TopStart(h);
  }
}

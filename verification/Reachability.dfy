/** The warehouse over whole lifetimes: landing, staging, seeding, streaming, fact loading and
reloading in any order at all, with no promise about when a client is seeded.
*/
module Reachability {
  import opened Model
  import opened FiniteSets
  import opened Histories
  import opened ClientCdc
  import opened Lists
  import opened ClientReload
  import opened Stopgaps
  import opened StopgapReload
  import opened Database
  import opened StreamRuns
  import opened FactIntegrity
  import opened ReloadSteps
  import opened ReloadRuns
  import opened ReloadTwice
  import opened BaselineSeed
  import opened BaselineRuns
  import opened FactLoad
  import opened Landing
  import opened LandingLogs

  /** All tables: the warehouse, the raw log and its staged copy. */
  datatype World = World(db: Db, raw: Table, staged: Table)

  function LogsIn(w: World): Logs {
    AsLogs(w.raw)
  }

  ghost predicate Lands(w: World, w': World) {
    exists landed :: LandedFrom(w, landed, w')
  }

  /** What a delivery may do is an assumption about the source. */
  ghost predicate LandedFrom(w: World, landed: seq<Event>, w': World) {
    w' == w.(raw := UpsertAll(w.raw, landed)) && LogsGrow(LogsIn(w), LogsIn(w'))
  }

  ghost predicate Stages(w: World, w': World) {
    exists copied :: StagedFrom(w, copied, w')
  }

  ghost predicate StagedFrom(w: World, copied: seq<Event>, w': World) {
    ListsInOrder(w.raw, copied) && w' == w.(staged := UpsertAll(w.staged, copied))
  }

  ghost predicate Seeds(w: World, w': World) {
    && w' == w.(db := w'.db)
    && exists profile, excluded, orphans :: IsSeedRun(w.db, profile, excluded, orphans, w'.db)
  }

  ghost predicate Streams(w: World, w': World) {
    exists es :: StreamedFrom(w, es, w')
  }

  ghost predicate StreamedFrom(w: World, es: seq<Event>, w': World) {
    ListsInOrder(w.staged, es) && w' == w.(db := StreamRun(w.db, es))
  }

  ghost predicate LoadsFacts(w: World, w': World) {
    && w' == w.(db := w'.db)
    && exists rows, trace :: LoadedFrom(w, rows, trace) && w'.db == trace[|rows|]
  }

  ghost predicate LoadedFrom(w: World, rows: seq<FactRow>, trace: seq<Db>) {
    && IsFactLoad(w.db, rows, trace)
    && forall r | r in rows :: BEGINNING_OF_TIME <= Midnight(r.day) < END_OF_TIME
  }

  ghost predicate Reloads(w: World, w': World) {
    exists fromTs, toTs, clients, traces, picks :: ReloadedFrom(w, fromTs, toTs, clients, traces, picks, w')
  }

  ghost predicate ReloadedFrom(w: World, fromTs: int, toTs: int, clients: seq<Client>,
                               traces: seq<Trace>, picks: seq<int>, w': World) {
    && w' == w.(db := w'.db)
    && IsWholeRun(w.db, w'.db, LogsIn(w), fromTs, toTs, clients, traces, picks)
  }

  ghost predicate Next(w: World, w': World) {
    Lands(w, w') || Stages(w, w') || Seeds(w, w') || Streams(w, w') || LoadsFacts(w, w') || Reloads(w, w')
  }

  ghost predicate Empty(w: World) {
    w == World(Db(map[], map[], [], map[], w.db.nextKey), EMPTY, EMPTY)
  }

  ghost predicate IsLifetime(life: seq<World>) {
    && life != [] && Empty(life[0])
    && forall i {:trigger LifeStep(life, i)} | 0 <= i < |life| - 1 :: LifeStep(life, i)
  }

  ghost predicate LifeStep(life: seq<World>, i: nat) {
    i + 1 < |life| && Next(life[i], life[i + 1])
  }

  /** Every client's real rows are one chain over its log; until there are any, its stopgaps keep
      apart. */
  ghost predicate ShapeOk(w: World, c: Client) {
    && LayeredIn(w.db, LogsIn(w), c)
    && (RealRows(HistoryOf(w.db, c)) == map[] ==> Disjoint(HistoryOf(w.db, c)))
  }

  ghost predicate WorldOk(w: World) {
    && Sound(w.db, LogsIn(w)) && Trails(w.raw, w.staged)
    && forall c {:trigger ShapeOk(w, c)} :: ShapeOk(w, c)
  }

  lemma RealIsHistory(h: History)
    ensures HasHistory(h) <==> RealRows(h) != map[]
  {
    if l :| l in h && 0 <= l {
      assert l in RealRows(h);
    }
    if RealRows(h) != map[] {
      var l := Pick(RealRows(h).Keys);
      assert l in h && 0 <= l;
    }
  }

  /** A seed may rely on a sound world. */
  lemma SoundIsSeedable(w: World)
    requires WorldOk(w)
    ensures Seedable(w.db)
  {
    forall c | 0 in HistoryOf(w.db, c) && !HasRealRows(HistoryOf(w.db, c))
      ensures IsBaseline(HistoryOf(w.db, c)[0])
    {
      var h := HistoryOf(w.db, c);
      assert ShapeOk(w, c);
      CleanIsLayered(w.db, LogsIn(w), c);
      assert After(h, 0) == {};
      assert Linked(h, 0);
      assert h[0].validFrom == StartOf(LogOf(LogsIn(w), c), 0);
    }
  }

  lemma LargerLog(s: ClientState, log: Log, more: Log)
    requires Layered(s, log)
    requires forall l | l in log :: l in more && more[l].commitTs == log[l].commitTs
    ensures Layered(s, more)
  {
    forall l | l in RealRows(s.history)
      ensures l != 0 ==> l in more
      ensures s.history[l].validFrom == StartOf(more, l)
    {
      assert RealRows(s.history)[l].validFrom == StartOf(log, l);
    }
  }

  lemma LandingKeepsOk(w: World, landed: seq<Event>, w': World)
    requires WorldOk(w) && LandedFrom(w, landed, w')
    ensures WorldOk(w')
  {
    LandingKeepsTrails(w.raw, w.staged, landed);
    forall c
      ensures ShapeOk(w', c)
    {
      assert ShapeOk(w, c);
      LargerLog(Project(w.db, c), LogOf(LogsIn(w), c), LogOf(LogsIn(w'), c));
    }
  }

  lemma StagingKeepsOk(w: World, copied: seq<Event>, w': World)
    requires WorldOk(w) && StagedFrom(w, copied, w')
    ensures WorldOk(w')
  {
    StagingKeepsTrails(w.raw, w.staged, copied);
    forall c
      ensures ShapeOk(w', c)
    {
      assert ShapeOk(w, c);
    }
  }

  /** Unchanged rows keep their shape while keys are drawn elsewhere. */
  lemma SameRowsSameShape(w: World, w': World, c: Client)
    requires ShapeOk(w, c) && w'.raw == w.raw
    requires HistoryOf(w'.db, c) == HistoryOf(w.db, c) && WatermarkOf(w'.db, c) == WatermarkOf(w.db, c)
    requires w.db.nextKey <= w'.db.nextKey
    ensures ShapeOk(w', c)
  {
  }

  /** A lone baseline row is a settled history. */
  lemma BaselineIsSettled(db: Db, raw: Logs, c: Client)
    requires KeysUnique(db) && OnlyBaseline(db, c) && 0 <= Floor(WatermarkOf(db, c))
    ensures Clean(db, raw, c)
  {
    var h := HistoryOf(db, c);
    assert After(h, 0) == {};
    assert Linked(h, 0);
    assert IsRow(db, c, 0, h[0].key);
  }

  /** A seeded client has its baseline row. */
  predicate Seeded(w: World, c: Client) {
    0 in HistoryOf(w.db, c)
  }

  lemma SeedRunKeepsTables(db: Db, profile: seq<(Client, Attributes)>, excluded: set<Client>,
                           orphans: seq<(Client, Attributes)>, after: Db)
    requires IsSeedRun(db, profile, excluded, orphans, after)
    ensures after.watermark == db.watermark && db.nextKey <= after.nextKey
    ensures after.facts.Keys == db.facts.Keys
    ensures forall id | id in db.facts :: after.facts[id].day == db.facts[id].day
  {
    var rows := Eligible(profile, excluded);
    SeedEachKeepsTables(db, rows);
    SeedEachKeepsTables(SeedEach(db, rows), orphans);
  }

  lemma SeedingKeepsShape(w: World, w': World, profile: seq<(Client, Attributes)>, excluded: set<Client>,
                          orphans: seq<(Client, Attributes)>, c: Client)
    requires WorldOk(w) && w' == w.(db := w'.db) && IsSeedRun(w.db, profile, excluded, orphans, w'.db)
    ensures ShapeOk(w', c) && KeysUnique(w'.db) && FactsAnchored(w'.db)
    ensures Seeded(w, c) ==> Seeded(w', c)
    ensures Disjoint(HistoryOf(w'.db, c)) <==> Disjoint(HistoryOf(w.db, c))
  {
    var h := HistoryOf(w.db, c);
    SoundIsSeedable(w);
    assert ShapeOk(w, c);
    SeedRunOutcome(w.db, profile, excluded, orphans, w'.db, c);
    SeedRunKeepsTables(w.db, profile, excluded, orphans, w'.db);
    if HasRealRows(h) || (!Listed(profile, c) && !HasStopgap(w.db, c)) {
      SeedRunLeaves(w.db, profile, excluded, orphans, w'.db, c);
      SameRowsSameShape(w, w', c);
    } else if c in excluded {
      SameRowsSameShape(w, w', c);
    } else {
      BaselineIsSettled(w'.db, LogsIn(w'), c);
      CleanIsLayered(w'.db, LogsIn(w'), c);
      ChainIsDisjoint(HistoryOf(w'.db, c));
      UnseededIsDisjoint(w, c);
    }
  }

  lemma UnseededIsDisjoint(w: World, c: Client)
    requires ShapeOk(w, c) && !HasRealRows(HistoryOf(w.db, c))
    ensures Disjoint(HistoryOf(w.db, c))
  {
    var h := HistoryOf(w.db, c);
    if 0 in h {
      CleanIsLayered(w.db, LogsIn(w), c);
      ChainIsDisjoint(h);
    } else {
      RealIsHistory(h);
    }
  }

  lemma SeedingKeepsOk(w: World, w': World)
    requires WorldOk(w) && Seeds(w, w')
    ensures WorldOk(w') && (forall c | Seeded(w, c) :: Seeded(w', c))
    ensures forall c :: Disjoint(HistoryOf(w'.db, c)) <==> Disjoint(HistoryOf(w.db, c))
  {
    var profile, excluded, orphans :| IsSeedRun(w.db, profile, excluded, orphans, w'.db);
    SeedingKeepsSound(w, w', profile, excluded, orphans);
    forall c
      ensures ShapeOk(w', c)
      ensures Seeded(w, c) ==> Seeded(w', c)
      ensures Disjoint(HistoryOf(w'.db, c)) <==> Disjoint(HistoryOf(w.db, c))
    {
      SeedingKeepsShape(w, w', profile, excluded, orphans, c);
    }
  }

  lemma SeedingKeepsSound(w: World, w': World, profile: seq<(Client, Attributes)>, excluded: set<Client>,
                          orphans: seq<(Client, Attributes)>)
    requires WorldOk(w) && w' == w.(db := w'.db) && IsSeedRun(w.db, profile, excluded, orphans, w'.db)
    ensures Sound(w'.db, LogsIn(w'))
  {
    SeedRunKeepsTables(w.db, profile, excluded, orphans, w'.db);
    SeedingKeepsShape(w, w', profile, excluded, orphans, "");
  }

  lemma {:induction false} HandleKeepsRow(db: Db, es: seq<Event>, c: Client, l: int)
    requires l in HistoryOf(db, c)
    ensures l in HistoryOf(Handle(db, es), c)
  {
    if es != [] {
      HandleKeepsRow(db, DropLast(es), c, l);
      var mid := Handle(db, DropLast(es));
      if Last(es).client == c {
        HandleIsStep(mid, Last(es));
        StepIsFresh(Project(mid, c), Last(es));
      } else {
        HandleKeepsOthers(mid, Last(es), c);
      }
    }
  }

  lemma SameContentDisjoint(g: History, h: History)
    requires SameContent(g, h)
    ensures Disjoint(g) <==> Disjoint(h)
  {
    forall t
      ensures Covering(g, t) == Covering(h, t)
    {
      forall l | l in g
        ensures Covers(g[l], t) == Covers(h[l], t)
      {
        assert g[l].(key := 0) == h[l].(key := 0);
      }
    }
    if Disjoint(g) {
      forall l, m, t | l in Covering(h, t) && m in Covering(h, t)
        ensures l == m
      {
        assert l in Covering(g, t) && m in Covering(g, t);
      }
    }
    if Disjoint(h) {
      forall l, m, t | l in Covering(g, t) && m in Covering(g, t)
        ensures l == m
      {
        assert l in Covering(h, t) && m in Covering(h, t);
      }
    }
  }

  /** Streaming client c makes no stopgap meet a real row: it has real rows already, or every
      stopgap had ended by the commit time of its first selected event. */
  ghost predicate StreamsApart(w: World, es: seq<Event>, c: Client) {
    var h, own := HistoryOf(w.db, c), OfClient(Selected(w.db, es), c);
    RealRows(h) == map[] ==>
      forall i: nat | FirstAbove(own, Floor(WatermarkOf(w.db, c)), i) :: EndedBy(h, own[i].commitTs)
  }

  lemma StreamingKeepsShape(w: World, es: seq<Event>, w': World, c: Client)
    requires WorldOk(w) && StreamedFrom(w, es, w')
    ensures ShapeOk(w', c) && (Seeded(w, c) ==> Seeded(w', c))
    ensures Disjoint(HistoryOf(w'.db, c)) <==> Disjoint(HistoryOf(w.db, c)) && StreamsApart(w, es, c)
  {
    var sel := Selected(w.db, es);
    assert ShapeOk(w, c);
    StagedIsLogged(w.db, w.raw, w.staged, es);
    HandleKeepsLayered(w.db, LogsIn(w), sel, c);
    if 0 in HistoryOf(w.db, c) {
      HandleKeepsRow(w.db, sel, c, 0);
    }
    var s, own := Project(w.db, c), OfClient(sel, c);
    OfClientLogged(LogsIn(w), sel, c);
    ClientSeesItsOwn(w.db, sel, c);
    StreamKeepsDisjointIff(s, LogOf(LogsIn(w), c), own);
    SameContentDisjoint(HistoryOf(w'.db, c), Run(s, own).history);
    if RealRows(HistoryOf(w.db, c)) != map[] {
      var l := Pick(RealRows(HistoryOf(w.db, c)).Keys);
      HandleKeepsRow(w.db, sel, c, l);
      assert l in RealRows(HistoryOf(w'.db, c));
    } else if RealRows(HistoryOf(w'.db, c)) == map[] {
      NoRealRowsDisjoint(w, w', c);
    }
  }

  /** Without real rows the stopgaps are what they were. */
  lemma NoRealRowsDisjoint(w: World, w': World, c: Client)
    requires ShapeOk(w, c) && SameStopgaps(HistoryOf(w.db, c), HistoryOf(w'.db, c))
    requires RealRows(HistoryOf(w.db, c)) == map[] && RealRows(HistoryOf(w'.db, c)) == map[]
    ensures Disjoint(HistoryOf(w'.db, c))
  {
    var h, g := HistoryOf(w.db, c), HistoryOf(w'.db, c);
    LayeredDisjointIff(Project(w.db, c), LogOf(LogsIn(w), c));
    forall l, m, t | l in Covering(g, t) && m in Covering(g, t)
      ensures l == m
    {
      RealIsHistory(g);
      assert l < 0 && m < 0;
      assert l in Covering(StopgapRows(h), t) && m in Covering(StopgapRows(h), t);
    }
  }

  lemma StreamingKeepsOk(w: World, es: seq<Event>, w': World)
    requires WorldOk(w) && StreamedFrom(w, es, w')
    ensures WorldOk(w') && (forall c | Seeded(w, c) :: Seeded(w', c))
    ensures forall c :: Disjoint(HistoryOf(w'.db, c)) <==> Disjoint(HistoryOf(w.db, c)) && StreamsApart(w, es, c)
  {
    HandleKeepsIntegrity(w.db, Selected(w.db, es));
    forall c
      ensures ShapeOk(w', c) && (Seeded(w, c) ==> Seeded(w', c))
      ensures Disjoint(HistoryOf(w'.db, c)) <==> Disjoint(HistoryOf(w.db, c)) && StreamsApart(w, es, c)
    {
      StreamingKeepsShape(w, es, w', c);
    }
  }

  lemma LoadingKeepsShape(w: World, row: FactRow, after: Db, c: Client)
    requires WorldOk(w) && Loaded(w.db, row, after) && BEGINNING_OF_TIME <= Midnight(row.day) < END_OF_TIME
    ensures ShapeOk(w.(db := after), c) && (Seeded(w, c) ==> Seeded(w.(db := after), c))
    ensures Disjoint(HistoryOf(after, c)) <==> Disjoint(HistoryOf(w.db, c))
  {
    assert ShapeOk(w, c);
    if c == row.client && Covering(HistoryOf(w.db, c), Midnight(row.day)) == {} {
      AllocatingKeepsShape(w, row, after);
    } else {
      SameRowsSameShape(w, w.(db := after), c);
    }
  }

  lemma AllocatingKeepsShape(w: World, row: FactRow, after: Db)
    requires ShapeOk(w, row.client) && Loaded(w.db, row, after) && BEGINNING_OF_TIME <= Midnight(row.day) < END_OF_TIME
    requires Covering(HistoryOf(w.db, row.client), Midnight(row.day)) == {}
    ensures ShapeOk(w.(db := after), row.client) && !Seeded(w, row.client)
    ensures Disjoint(HistoryOf(w.db, row.client)) && Disjoint(HistoryOf(after, row.client))
  {
    var h := HistoryOf(w.db, row.client);
    RealIsHistory(h);
    StopgapLsnIsFree(h);
    StopgapKeepsDisjoint(h, w.db.nextKey, Midnight(row.day));
    assert RealRows(HistoryOf(after, row.client)) == map[];
  }

  lemma LoadingOneKeepsOk(w: World, row: FactRow, after: Db)
    requires WorldOk(w) && Loaded(w.db, row, after) && BEGINNING_OF_TIME <= Midnight(row.day) < END_OF_TIME
    ensures WorldOk(w.(db := after)) && (forall c | Seeded(w, c) :: Seeded(w.(db := after), c))
    ensures forall c :: Disjoint(HistoryOf(after, c)) <==> Disjoint(HistoryOf(w.db, c))
  {
    LoadKeepsSound(w, row, after);
    forall c
      ensures ShapeOk(w.(db := after), c)
      ensures Seeded(w, c) ==> Seeded(w.(db := after), c)
      ensures Disjoint(HistoryOf(after, c)) <==> Disjoint(HistoryOf(w.db, c))
    {
      LoadingKeepsShape(w, row, after, c);
    }
  }

  lemma LoadKeepsSound(w: World, row: FactRow, after: Db)
    requires Sound(w.db, LogsIn(w)) && Loaded(w.db, row, after) && BEGINNING_OF_TIME <= Midnight(row.day) < END_OF_TIME
    ensures Sound(after, LogsIn(w))
  {
    LoadKeepsIntegrity(w.db, row, after);
  }

  lemma {:induction false} LoadingKeepsOk(w: World, rows: seq<FactRow>, trace: seq<Db>, n: nat)
    requires WorldOk(w) && LoadedFrom(w, rows, trace) && n <= |rows|
    ensures WorldOk(w.(db := trace[n])) && (forall c | Seeded(w, c) :: Seeded(w.(db := trace[n]), c))
    ensures forall c :: Disjoint(HistoryOf(trace[n], c)) <==> Disjoint(HistoryOf(w.db, c))
  {
    if n > 0 {
      LoadingKeepsOk(w, rows, trace, n - 1);
      assert LoadedAt(rows, trace, n - 1) && rows[n - 1] in rows;
      LoadingOneKeepsOk(w.(db := trace[n - 1]), rows[n - 1], trace[n]);
    } else {
      assert w.(db := trace[0]) == w;
    }
  }

  /** Reloading client c makes no two windows meet.  Where a real row survives that depends on what
      was there before; where none does, the reset reopens the highest stopgap, and the other
      stopgaps have to have ended both when it starts and when the replay does. */
  ghost predicate ReloadsApart(w: World, fromTs: int, toTs: int, c: Client) {
    var h := HistoryOf(w.db, c);
    if c !in Affected(LogsIn(w), fromTs, toTs) then Disjoint(h)
    else
      var from := ResetPoint(LogsIn(w), c, fromTs, toTs);
      if RealSurvivor(h, from) || StopgapRows(h) == map[] then Disjoint(h)
      else
        && Disjoint(Others(h)) && EndedBy(Others(h), TopStart(h))
        && EndedBy(Others(h), LogsIn(w)[c][from].commitTs)
  }

  lemma WorldIsReady(w: World, fromTs: int, toTs: int)
    requires WorldOk(w)
    ensures Ready(w.db, LogsIn(w), fromTs, toTs)
  {
    forall c
      ensures LayeredIn(w.db, LogsIn(w), c)
    {
      assert ShapeOk(w, c);
    }
  }

  lemma ReloadingKeepsShape(w: World, w': World, fromTs: int, toTs: int, clients: seq<Client>,
                            traces: seq<Trace>, picks: seq<int>, c: Client)
    requires WorldOk(w) && ReloadedFrom(w, fromTs, toTs, clients, traces, picks, w')
    ensures Sound(w'.db, LogsIn(w')) && LayeredIn(w'.db, LogsIn(w'), c)
    ensures Disjoint(HistoryOf(w'.db, c)) <==> ReloadsApart(w, fromTs, toTs, c)
  {
    assert ShapeOk(w, c);
    WorldIsReady(w, fromTs, toTs);
    RunKeepsSound(w.db, LogsIn(w), fromTs, toTs, clients, traces, picks, |traces|);
    assert LayeredIn(w'.db, LogsIn(w'), c);
    if c !in clients {
      UntouchedBetween(w.db, LogsIn(w), fromTs, toTs, clients, traces, picks, c, 0, |traces|);
    } else {
      var i :| 0 <= i < |clients| && clients[i] == c;
      OwnReloadDisjoint(w, fromTs, toTs, clients, traces, picks, i);
    }
  }

  lemma OwnReloadDisjoint(w: World, fromTs: int, toTs: int, clients: seq<Client>,
                          traces: seq<Trace>, picks: seq<int>, i: nat)
    requires WorldOk(w) && IsReloadRun(w.db, LogsIn(w), fromTs, toTs, clients, traces, picks)
    requires i < |traces| && Distinct(clients)
    ensures clients[i] in Affected(LogsIn(w), fromTs, toTs)
    ensures Disjoint(HistoryOf(StateAfter(w.db, traces, |traces|), clients[i])) <==>
      ReloadsApart(w, fromTs, toTs, clients[i])
  {
    var logs := LogsIn(w);
    WorldIsReady(w, fromTs, toTs);
    CallOfStep(w.db, logs, fromTs, toTs, clients, traces, picks, i);
    OwnTraceReloads(w.db, logs, fromTs, toTs, clients, traces, picks, i);
    var c, from := clients[i], ResetPoint(logs, clients[i], fromTs, toTs);
    FirstEvent(logs, c, from);
    ReloadKeepsDisjointIff(Project(traces[i].start, c), LogOf(logs, c), from, EventsFrom(logs, c, from),
                           traces[i].parking.placeholder);
  }

  lemma ReloadKeepsUnreal(w: World, w': World, fromTs: int, toTs: int, clients: seq<Client>,
                          traces: seq<Trace>, picks: seq<int>, c: Client)
    requires WorldOk(w) && ReloadedFrom(w, fromTs, toTs, clients, traces, picks, w')
    requires RealRows(HistoryOf(w'.db, c)) == map[]
    ensures Disjoint(HistoryOf(w'.db, c))
    ensures RealRows(HistoryOf(w.db, c)) != map[] ==> HistoryOf(w'.db, c) == map[]
  {
    assert ShapeOk(w, c);
    WorldIsReady(w, fromTs, toTs);
    if c !in clients {
      UntouchedBetween(w.db, LogsIn(w), fromTs, toTs, clients, traces, picks, c, 0, |traces|);
    } else {
      var i :| 0 <= i < |clients| && clients[i] == c;
      CallOfStep(w.db, LogsIn(w), fromTs, toTs, clients, traces, picks, i);
      OwnTraceReloads(w.db, LogsIn(w), fromTs, toTs, clients, traces, picks, i);
      var from := ResetPoint(LogsIn(w), c, fromTs, toTs);
      UnrealAfterReload(Project(traces[i].start, c), LogOf(LogsIn(w), c), from, EventsFrom(LogsIn(w), c, from),
                        traces[i].parking.placeholder);
    }
  }

  /** A reload that leaves no real row found no stopgap either. */
  lemma UnrealAfterReload(s: ClientState, log: Log, from: int, es: seq<Event>, attrs: Option<Attributes>)
    requires LayeredCall(s, log, from, es, attrs) && RealRows(Reload(s, from, es, attrs).history) == map[]
    ensures Reload(s, from, es, attrs).history == map[] && Disjoint(Reload(s, from, es, attrs).history)
  {
    var t := Reload(s, from, es, attrs);
    ReloadLandsIff(s, log, from, es, attrs, 0);
    RealIsHistory(t.history);
    NoSurvivorNoStopgap(s.history, from);
    forall l
      ensures l !in t.history
    {
      if l < 0 {
        ReloadKeepsStopgapLsns(s, log, from, es, attrs, l);
      }
    }
  }

  /** A reload never deletes the baseline row: its reset point is a logged lsn. */
  lemma ReloadKeepsBaseline(w: World, fromTs: int, toTs: int, clients: seq<Client>,
                            traces: seq<Trace>, picks: seq<int>, c: Client)
    requires IsReloadRun(w.db, LogsIn(w), fromTs, toTs, clients, traces, picks) && Distinct(clients)
    requires WorldOk(w) && Seeded(w, c)
    ensures 0 in HistoryOf(StateAfter(w.db, traces, |traces|), c)
  {
    WorldIsReady(w, fromTs, toTs);
    if c !in clients {
      UntouchedBetween(w.db, LogsIn(w), fromTs, toTs, clients, traces, picks, c, 0, |traces|);
    } else {
      var i :| 0 <= i < |clients| && clients[i] == c;
      CallOfStep(w.db, LogsIn(w), fromTs, toTs, clients, traces, picks, i);
      OwnTraceReloads(w.db, LogsIn(w), fromTs, toTs, clients, traces, picks, i);
      var from := ResetPoint(LogsIn(w), c, fromTs, toTs);
      LowerRowsKeepKeys(Project(traces[i].start, c), from, EventsFrom(LogsIn(w), c, from), traces[i].parking.placeholder, 0);
    }
  }

  lemma ReloadingKeepsOk(w: World, w': World, fromTs: int, toTs: int, clients: seq<Client>,
                         traces: seq<Trace>, picks: seq<int>)
    requires WorldOk(w) && ReloadedFrom(w, fromTs, toTs, clients, traces, picks, w')
    ensures WorldOk(w') && (forall c | Seeded(w, c) :: Seeded(w', c))
    ensures forall c :: Disjoint(HistoryOf(w'.db, c)) <==> ReloadsApart(w, fromTs, toTs, c)
  {
    ReloadingKeepsShape(w, w', fromTs, toTs, clients, traces, picks, "");
    forall c
      ensures ShapeOk(w', c) && (Seeded(w, c) ==> Seeded(w', c))
      ensures Disjoint(HistoryOf(w'.db, c)) <==> ReloadsApart(w, fromTs, toTs, c)
    {
      ReloadingKeepsShape(w, w', fromTs, toTs, clients, traces, picks, c);
      if RealRows(HistoryOf(w'.db, c)) == map[] {
        ReloadKeepsUnreal(w, w', fromTs, toTs, clients, traces, picks, c);
      }
      if Seeded(w, c) {
        ReloadKeepsBaseline(w, fromTs, toTs, clients, traces, picks, c);
      }
    }
  }

  lemma NextKeepsOk(w: World, w': World)
    requires WorldOk(w) && Next(w, w')
    ensures WorldOk(w') && forall c | Seeded(w, c) :: Seeded(w', c)
  {
    if Lands(w, w') {
      var landed :| LandedFrom(w, landed, w');
      LandingKeepsOk(w, landed, w');
    } else if Stages(w, w') {
      var copied :| StagedFrom(w, copied, w');
      StagingKeepsOk(w, copied, w');
    } else if Seeds(w, w') {
      SeedingKeepsOk(w, w');
    } else if Streams(w, w') {
      var es :| StreamedFrom(w, es, w');
      StreamingKeepsOk(w, es, w');
    } else if LoadsFacts(w, w') {
      var rows, trace :| LoadedFrom(w, rows, trace) && w'.db == trace[|rows|];
      LoadingKeepsOk(w, rows, trace, |rows|);
    } else {
      var fromTs, toTs, clients, traces, picks :| ReloadedFrom(w, fromTs, toTs, clients, traces, picks, w');
      ReloadingKeepsOk(w, w', fromTs, toTs, clients, traces, picks);
    }
  }

  /** Every state of every lifetime is sound: keys are unique, each fact names a version of its
      own client that had started by its day, and each client's real rows are one chain over its
      log. */
  lemma {:induction false} AlwaysOk(life: seq<World>, i: nat)
    requires IsLifetime(life) && i < |life|
    ensures WorldOk(life[i])
  {
    if i == 0 {
      forall c
        ensures ShapeOk(life[0], c)
      {
        assert HistoryOf(life[0].db, c) == map[];
      }
    } else {
      AlwaysOk(life, i - 1);
      assert LifeStep(life, i - 1);
      NextKeepsOk(life[i - 1], life[i]);
    }
  }

  lemma NextKeepsSeeded(w: World, w': World, c: Client)
    requires WorldOk(w) && Next(w, w') && Seeded(w, c)
    ensures Seeded(w', c)
  {
    NextKeepsOk(w, w');
  }

  lemma LifeKeepsSeeded(life: seq<World>, c: Client, j: nat)
    requires IsLifetime(life) && j + 1 < |life| && Seeded(life[j], c)
    ensures Seeded(life[j + 1], c)
  {
    AlwaysOk(life, j);
    assert LifeStep(life, j);
    NextKeepsSeeded(life[j], life[j + 1], c);
  }

  lemma {:induction false} SeededStays(life: seq<World>, c: Client, i: nat, j: nat)
    requires IsLifetime(life) && i <= j < |life| && Seeded(life[i], c)
    ensures Seeded(life[j], c)
  {
    if i < j {
      SeededStays(life, c, i, j - 1);
      LifeKeepsSeeded(life, c, j - 1);
    }
  }

  /** Partition: from its seed on, and for good, a client's windows divide all of time among
      them - the unordered lookup has exactly one answer at every instant, in every later state
      of every lifetime. */
  lemma SeededForGood(life: seq<World>, c: Client, i: nat, j: nat)
    requires IsLifetime(life) && i <= j < |life| && Seeded(life[i], c)
    ensures Seeded(life[j], c) && OneAnswerAlways(HistoryOf(life[j].db, c))
  {
    SeededStays(life, c, i, j);
    AlwaysOk(life, j);
    assert ShapeOk(life[j], c);
    SeededIsAnswered(life[j], c);
  }

  lemma SeededIsAnswered(w: World, c: Client)
    requires ShapeOk(w, c) && Seeded(w, c)
    ensures OneAnswerAlways(HistoryOf(w.db, c))
  {
    CleanIsLayered(w.db, LogsIn(w), c);
    assert HistoryOf(w.db, c)[0].validFrom == StartOf(LogOf(LogsIn(w), c), 0);
    SeededAlwaysAnswered(HistoryOf(w.db, c));
  }

  /** A streaming or reload step that makes no two windows of any client meet. */
  ghost predicate KeepsApart(w: World, w': World) {
    && (forall es | StreamedFrom(w, es, w') :: forall c :: StreamsApart(w, es, c))
    && forall fromTs, toTs, clients, traces, picks {:trigger ReloadedFrom(w, fromTs, toTs, clients, traces, picks, w')} |
         ReloadedFrom(w, fromTs, toTs, clients, traces, picks, w') :: forall c :: ReloadsApart(w, fromTs, toTs, c)
  }

  /** A step keeps every lookup unambiguous if and only if it keeps stopgaps and real rows apart. */
  lemma StepKeepsApartIff(w: World, w': World)
    requires WorldOk(w) && Next(w, w') && AllDisjoint(w.db)
    ensures AllDisjoint(w'.db) <==> KeepsApart(w, w')
  {
    forall c
      ensures Disjoint(HistoryOf(w.db, c))
    {
    }
    forall es | StreamedFrom(w, es, w')
      ensures AllDisjoint(w'.db) <==> forall c :: StreamsApart(w, es, c)
    {
      StreamingKeepsOk(w, es, w');
    }
    forall fromTs, toTs, clients, traces, picks | ReloadedFrom(w, fromTs, toTs, clients, traces, picks, w')
      ensures AllDisjoint(w'.db) <==> forall c :: ReloadsApart(w, fromTs, toTs, c)
    {
      ReloadingKeepsOk(w, w', fromTs, toTs, clients, traces, picks);
    }
    if !Streams(w, w') && !Reloads(w, w') {
      QuietStepKeepsDisjoint(w, w');
    }
  }

  lemma QuietStepKeepsDisjoint(w: World, w': World)
    requires WorldOk(w) && (Lands(w, w') || Stages(w, w') || Seeds(w, w') || LoadsFacts(w, w')) && AllDisjoint(w.db)
    ensures AllDisjoint(w'.db)
  {
    if Seeds(w, w') {
      SeedingKeepsOk(w, w');
    } else if LoadsFacts(w, w') {
      var rows, trace :| LoadedFrom(w, rows, trace) && w'.db == trace[|rows|];
      LoadingKeepsOk(w, rows, trace, |rows|);
    }
  }

  lemma LifeStepApartIff(life: seq<World>, i: nat)
    requires IsLifetime(life) && i + 1 < |life| && AllDisjoint(life[i].db)
    ensures AllDisjoint(life[i + 1].db) <==> StepApart(life, i)
  {
    AlwaysOk(life, i);
    assert LifeStep(life, i);
    StepKeepsApartIff(life[i], life[i + 1]);
  }

  ghost predicate StepApart(life: seq<World>, i: nat) {
    i + 1 < |life| && KeepsApart(life[i], life[i + 1])
  }

  ghost predicate Unambiguous(life: seq<World>, i: nat) {
    i < |life| && AllDisjoint(life[i].db)
  }

  lemma EmptyIsUnambiguous(w: World)
    requires Empty(w)
    ensures AllDisjoint(w.db)
  {
    forall c
      ensures Disjoint(HistoryOf(w.db, c))
    {
      assert HistoryOf(w.db, c) == map[];
    }
  }

  /** In a lifetime no lookup of any client ever has two answers if and only if no streaming run
      hands a client its first event before its stopgaps end, and no reload reopens a stopgap over
      another one or past the start of the log. */
  lemma NeverAmbiguousIff(life: seq<World>, n: nat)
    requires IsLifetime(life) && n < |life|
    ensures (forall i | 0 <= i <= n :: Unambiguous(life, i)) <==> forall i | 0 <= i < n :: StepApart(life, i)
  {
    var states, steps := seq(n + 1, i => i >= 0 && Unambiguous(life, i)), seq(n, i => i >= 0 && StepApart(life, i));
    EmptyIsUnambiguous(life[0]);
    forall i | 0 <= i < n && states[i]
      ensures states[i + 1] <==> steps[i]
    {
      LifeStepApartIff(life, i);
    }
    StateByState(states, steps);
    assert forall i | 0 <= i <= n :: states[i] == Unambiguous(life, i);
    assert forall i | 0 <= i < n :: steps[i] == StepApart(life, i);
  }

  lemma {:induction false} StateByState(states: seq<bool>, steps: seq<bool>)
    requires |states| == |steps| + 1 && states[0]
    requires forall i | 0 <= i < |steps| && states[i] :: states[i + 1] <==> steps[i]
    ensures (forall i | 0 <= i < |states| :: states[i]) <==> forall i | 0 <= i < |steps| :: steps[i]
  {
    if steps != [] {
      var n := |steps| - 1;
      var a, b := states[..n + 1], steps[..n];
      StateByState(a, b);
      assert forall i | 0 <= i < |a| :: a[i] == states[i];
      assert forall i | 0 <= i < |b| :: b[i] == steps[i];
      assert (forall i | 0 <= i < |states| :: states[i]) <==> (forall i | 0 <= i < |a| :: a[i]) && states[n + 1];
      assert (forall i | 0 <= i < |steps| :: steps[i]) <==> (forall i | 0 <= i < |b| :: b[i]) && steps[n];
    }
  }
}

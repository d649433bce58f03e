/** Convergence over whole lifetimes: what a full reload leaves of a client depends on its change
log and on the rows it started from, and on nothing that was streamed, loaded, seeded or reloaded
in between.
*/
module Lifetimes {
  import opened Model
  import opened FiniteSets
  import opened Histories
  import opened ClientCdc
  import opened ClientReload
  import opened Beginnings
  import opened Database
  import opened StreamRuns
  import opened ReloadSteps
  import opened ReloadRuns
  import opened BaselineRuns
  import opened FactLoad
  import opened LandingLogs
  import opened Reachability

  /** The client has its baseline or a version from its log. */
  predicate Begun(w: World, c: Client) {
    RealRows(HistoryOf(w.db, c)) != map[]
  }

  ghost predicate SameStart(w: World, w': World, c: Client) {
    SameContent(StartingRows(HistoryOf(w.db, c)), StartingRows(HistoryOf(w'.db, c)))
  }

  lemma SameStartTrans(a: World, b: World, d: World, c: Client)
    requires SameStart(a, b, c) && SameStart(b, d, c)
    ensures SameStart(a, d, c)
  {
    var f, g, h := StartingRows(HistoryOf(a.db, c)), StartingRows(HistoryOf(b.db, c)), StartingRows(HistoryOf(d.db, c));
    SameContentThrough(f, g, h);
  }

  /** A seed leaves a client alone that has begun. */
  lemma SeedingKeepsStart(w: World, w': World, c: Client)
    requires WorldOk(w) && Seeds(w, w') && Begun(w, c)
    ensures HistoryOf(w'.db, c) == HistoryOf(w.db, c)
  {
    var h := HistoryOf(w.db, c);
    var profile, excluded, orphans :| IsSeedRun(w.db, profile, excluded, orphans, w'.db);
    SoundIsSeedable(w);
    assert ShapeOk(w, c);
    var l := Pick(RealRows(h).Keys);
    assert l in h && 0 <= l;
    CleanIsLayered(w.db, LogsIn(w), c);
    SeedRunLeaves(w.db, profile, excluded, orphans, w'.db, c);
  }

  /** So does a fact load. */
  lemma {:induction false} LoadingKeepsRows(db: Db, rows: seq<FactRow>, trace: seq<Db>, n: nat, c: Client)
    requires IsFactLoad(db, rows, trace) && n <= |rows| && RealRows(HistoryOf(db, c)) != map[]
    ensures HistoryOf(trace[n], c) == HistoryOf(db, c)
  {
    if n > 0 {
      LoadingKeepsRows(db, rows, trace, n - 1, c);
      assert LoadedAt(rows, trace, n - 1);
      RealIsHistory(HistoryOf(db, c));
      LoadKeepsHistories(trace[n - 1], rows[n - 1], trace[n], c);
    }
  }

  lemma ReloadingKeepsStart(w: World, w': World, fromTs: int, toTs: int, clients: seq<Client>,
                            traces: seq<Trace>, picks: seq<int>, c: Client)
    requires WorldOk(w) && ReloadedFrom(w, fromTs, toTs, clients, traces, picks, w')
    ensures StartingRows(HistoryOf(w'.db, c)) == StartingRows(HistoryOf(w.db, c))
  {
    WorldIsReady(w, fromTs, toTs);
    if c !in clients {
      UntouchedBetween(w.db, LogsIn(w), fromTs, toTs, clients, traces, picks, c, 0, |traces|);
    } else {
      var i :| 0 <= i < |clients| && clients[i] == c;
      CallOfStep(w.db, LogsIn(w), fromTs, toTs, clients, traces, picks, i);
      OwnTraceReloads(w.db, LogsIn(w), fromTs, toTs, clients, traces, picks, i);
      var from := ResetPoint(LogsIn(w), c, fromTs, toTs);
      ReloadKeepsStart(Project(traces[i].start, c), LogOf(LogsIn(w), c), from, EventsFrom(LogsIn(w), c, from),
                       traces[i].parking.placeholder);
    }
  }

  lemma StreamsKeepStart(w: World, es: seq<Event>, w': World, c: Client)
    requires WorldOk(w) && StreamedFrom(w, es, w')
    ensures SameStart(w', w, c)
  {
    assert ShapeOk(w, c);
    StagedIsLogged(w.db, w.raw, w.staged, es);
    StreamingKeepsStart(w.db, LogsIn(w), Selected(w.db, es), c);
  }

  /** Only a seed or a fact load may change what a client starts from, and only before it has
      begun. */
  ghost predicate StartSettled(w: World, w': World, c: Client) {
    Begun(w, c) || (!Seeds(w, w') && !LoadsFacts(w, w'))
  }

  lemma NextKeepsStart(w: World, w': World, c: Client)
    requires WorldOk(w) && Next(w, w') && StartSettled(w, w', c)
    ensures SameStart(w', w, c)
  {
    if Seeds(w, w') {
      SeedingKeepsStart(w, w', c);
    } else if Streams(w, w') {
      var es :| StreamedFrom(w, es, w');
      StreamsKeepStart(w, es, w', c);
    } else if LoadsFacts(w, w') {
      var rows, trace :| LoadedFrom(w, rows, trace) && w'.db == trace[|rows|];
      LoadingKeepsRows(w.db, rows, trace, |rows|, c);
    } else if Reloads(w, w') {
      var fromTs, toTs, clients, traces, picks :| ReloadedFrom(w, fromTs, toTs, clients, traces, picks, w');
      ReloadingKeepsStart(w, w', fromTs, toTs, clients, traces, picks, c);
    }
  }

  ghost predicate SettledStep(life: seq<World>, c: Client, k: nat) {
    k + 1 < |life| && StartSettled(life[k], life[k + 1], c)
  }

  lemma LifeStepKeepsStart(life: seq<World>, c: Client, k: nat)
    requires IsLifetime(life) && SettledStep(life, c, k)
    ensures SameStart(life[k + 1], life[k], c)
  {
    AlwaysOk(life, k);
    assert LifeStep(life, k);
    NextKeepsStart(life[k], life[k + 1], c);
  }

  lemma {:induction false} StartStays(life: seq<World>, c: Client, i: nat, j: nat)
    requires IsLifetime(life) && i <= j < |life|
    requires forall k | i <= k < j :: SettledStep(life, c, k)
    ensures SameStart(life[j], life[i], c)
  {
    if i < j {
      StartStays(life, c, i, j - 1);
      LifeStepKeepsStart(life, c, j - 1);
      SameStartTrans(life[j], life[j - 1], life[i], c);
    }
  }

  /** Step j of the lifetime reloads client c from the earliest event of its log on. */
  ghost predicate FullReload(life: seq<World>, j: nat, fromTs: int, toTs: int, clients: seq<Client>,
                             traces: seq<Trace>, picks: seq<int>, c: Client) {
    && j + 1 < |life| && ReloadedFrom(life[j], fromTs, toTs, clients, traces, picks, life[j + 1])
    && c in Affected(LogsIn(life[j]), fromTs, toTs)
    && forall l | l in LogsIn(life[j])[c] :: ResetPoint(LogsIn(life[j]), c, fromTs, toTs) <= l
  }

  /** What a full reload of client c at step j should leave: its log, once, in lsn order, over the
      rows it started from at state i. */
  ghost function LogAppliedOnce(life: seq<World>, i: nat, j: nat, fromTs: int, toTs: int, c: Client): ClientState
    requires i < |life| && j < |life| && c in Affected(LogsIn(life[j]), fromTs, toTs)
  {
    AppliedOnce(StartingRows(HistoryOf(life[i].db, c)),
                EventsFrom(LogsIn(life[j]), c, ResetPoint(LogsIn(life[j]), c, fromTs, toTs)))
  }

  /** Convergence over a lifetime.  From any state i on, let seeds and fact loads find the client
      either begun or not at all; whatever landings, stagings, streaming runs, loads and reloads of
      any windows came in between, in any order, a full reload leaves exactly what applying the
      present log once, in lsn order, to the rows of state i gives - if and only if it starts
      without a placeholder or the log without a delete. */
  lemma LifetimeConvergesIff(life: seq<World>, i: nat, j: nat, fromTs: int, toTs: int, clients: seq<Client>,
                             traces: seq<Trace>, picks: seq<int>, c: Client)
    requires IsLifetime(life) && i <= j && FullReload(life, j, fromTs, toTs, clients, traces, picks, c)
    requires forall k | i <= k < j :: SettledStep(life, c, k)
    ensures var from, once := ResetPoint(LogsIn(life[j]), c, fromTs, toTs), LogAppliedOnce(life, i, j, fromTs, toTs, c);
      && (SameContent(HistoryOf(life[j + 1].db, c), once.history) <==>
            !NeedsPlaceholder(life[j].db, c, from) || !LogsIn(life[j])[c][from].change.Delete?)
      && (Similar(Project(life[j + 1].db, c), once) <==>
            SameContent(HistoryOf(life[j + 1].db, c), once.history)
            && (once.history != map[] || WatermarkOf(life[j].db, c) == None))
  {
    var n :| 0 <= n < |clients| && clients[n] == c;
    var from := ResetPoint(LogsIn(life[j]), c, fromTs, toTs);
    var es := EventsFrom(LogsIn(life[j]), c, from);
    AlwaysOk(life, j);
    WorldIsReady(life[j], fromTs, toTs);
    WarehouseConverges(life[j].db, LogsIn(life[j]), fromTs, toTs, clients, traces, picks, n);
    StartStays(life, c, i, j);
    AppliedOnceIgnoresKeys(StartingRows(HistoryOf(life[j].db, c)), StartingRows(HistoryOf(life[i].db, c)), es);
    SimilarThrough(Project(life[j + 1].db, c), AppliedOnce(StartingRows(HistoryOf(life[j].db, c)), es),
                   LogAppliedOnce(life, i, j, fromTs, toTs, c));
  }

  lemma SimilarThrough(a: ClientState, b: ClientState, d: ClientState)
    requires Similar(b, d)
    ensures SameContent(a.history, b.history) <==> SameContent(a.history, d.history)
    ensures Similar(a, b) <==> Similar(a, d)
    ensures b.history == map[] <==> d.history == map[]
  {
    SameContentThrough(a.history, b.history, d.history);
    assert b.history.Keys == d.history.Keys;
  }

  /** A seeded client starts from its baseline row. */
  lemma SeededStart(w: World, c: Client)
    requires ShapeOk(w, c) && Seeded(w, c)
    ensures StartingRows(HistoryOf(w.db, c)) ==
      map[0 := HistoryOf(w.db, c)[0].(isCurrent := true, validTo := END_OF_TIME)]
  {
    var h := HistoryOf(w.db, c);
    assert Below(h, 1).Keys == {0};
  }

  lemma SeededBegun(w: World, c: Client)
    requires Seeded(w, c)
    ensures Begun(w, c)
  {
    assert 0 in RealRows(HistoryOf(w.db, c));
  }

  /** For a seeded client there is no condition: from its seed on, however its events were streamed,
      its facts loaded, its log corrected and its windows reloaded, a full reload always leaves the
      rows and the watermark of its present log applied once to its baseline. */
  lemma SeededConverges(life: seq<World>, i: nat, j: nat, fromTs: int, toTs: int, clients: seq<Client>,
                        traces: seq<Trace>, picks: seq<int>, c: Client)
    requires IsLifetime(life) && i <= j && FullReload(life, j, fromTs, toTs, clients, traces, picks, c)
    requires Seeded(life[i], c)
    ensures var baseline := HistoryOf(life[i].db, c)[0].(isCurrent := true, validTo := END_OF_TIME);
      var from := ResetPoint(LogsIn(life[j]), c, fromTs, toTs);
      Similar(Project(life[j + 1].db, c), AppliedOnce(map[0 := baseline], EventsFrom(LogsIn(life[j]), c, from)))
  {
    forall k | i <= k < j
      ensures SettledStep(life, c, k)
    {
      SeededStays(life, c, i, k);
      SeededBegun(life[k], c);
    }
    LifetimeConvergesIff(life, i, j, fromTs, toTs, clients, traces, picks, c);
    AlwaysOk(life, i);
    assert ShapeOk(life[i], c);
    SeededStart(life[i], c);
    SeededStays(life, c, i, j);
    AlwaysOk(life, j);
    var from := ResetPoint(LogsIn(life[j]), c, fromTs, toTs);
    assert LogOk(LogOf(LogsIn(life[j]), c));
    assert 0 in Below(HistoryOf(life[j].db, c), from);
    RunKeepsRows(StartingAt(StartingRows(HistoryOf(life[i].db, c))), EventsFrom(LogsIn(life[j]), c, from));
    assert 0 in LogAppliedOnce(life, i, j, fromTs, toTs, c).history;
  }
}

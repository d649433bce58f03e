/** A source that corrects an event's values but never turns a delete into something else or
something else into a delete.  What that promise buys over whole lifetimes: no reload strips a
client of its rows, and a client that has begun stays begun.
*/
module EventKinds {
  import opened Model
  import opened FiniteSets
  import opened Histories
  import opened ClientCdc
  import opened Lists
  import opened Streaming
  import opened ClientReload
  import opened StopgapReload
  import opened Database
  import opened StreamRuns
  import opened FactIntegrity
  import opened ReloadSteps
  import opened ReloadRuns
  import opened BaselineRuns
  import opened FactLoad
  import opened Landing
  import opened LandingLogs
  import opened Reachability
  import opened Lifetimes
  import opened WatermarkRows

  ghost predicate KindsMatch(log: Log, es: seq<Event>) {
    forall i | 0 <= i < |es| :: es[i].lsn in log && es[i].change.Delete? == log[es[i].lsn].change.Delete?
  }

  /** A row to hold on to: a starting row, or one whose event was not a delete. */
  ghost predicate RootAt(h: History, log: Log, l: int) {
    l in h && (l < 1 || (l in log && !log[l].change.Delete?))
  }

  ghost predicate Rooted(h: History, log: Log) {
    h != map[] ==> exists l :: RootAt(h, log, l)
  }

  lemma RootStays(h: History, g: History, log: Log)
    requires h != map[] && Rooted(h, log) && h.Keys <= g.Keys
    ensures Rooted(g, log)
  {
    var l :| RootAt(h, log, l);
    assert RootAt(g, log, l);
  }

  lemma StepKeepsRoot(s: ClientState, log: Log, e: Event)
    requires Rooted(s.history, log) && KindsMatch(log, [e])
    ensures Rooted(Step(s, e).history, log)
  {
    assert [e][0].lsn in log;
    if s.history != map[] {
      StepIsFresh(s, e);
      RootStays(s.history, Step(s, e).history, log);
    } else if Step(s, e).history != map[] {
      assert EndDate(s.history, e.commitTs) == map[];
      assert RootAt(Step(s, e).history, log, e.lsn);
    }
  }

  lemma {:induction false} RunKeepsRoot(s: ClientState, log: Log, es: seq<Event>)
    requires Rooted(s.history, log) && KindsMatch(log, es)
    ensures Rooted(Run(s, es).history, log)
  {
    if es != [] {
      RunKeepsRoot(s, log, DropLast(es));
      assert [Last(es)][0] == es[|es| - 1];
      StepKeepsRoot(Run(s, DropLast(es)), log, Last(es));
    }
  }

  /** The replayed events are the log from the reset point on, kinds included. */
  ghost predicate ReplaysLog(log: Log, from: int, es: seq<Event>) {
    && KindsMatch(log, es)
    && forall l | l in log && from <= l :: exists i :: 0 <= i < |es| && es[i].lsn == l
  }

  lemma RootLands(s: ClientState, log: Log, from: int, es: seq<Event>, attrs: Option<Attributes>, l: int)
    requires LayeredCall(s, log, from, es, attrs) && ReplaysLog(log, from, es) && RootAt(s.history, log, l)
    ensures RootAt(Reload(s, from, es, attrs).history, log, l)
  {
    if l < from {
      assert l in Below(s.history, from);
      SurvivorsStay(s, from);
      RunKeepsRows(Reset(s, from), es);
      assert l in Reset(s, from).history;
    } else {
      var i :| 0 <= i < |es| && es[i].lsn == l;
      LeadingDeletesSpan(map[], es);
      ReloadLandsIff(s, log, from, es, attrs, i);
    }
  }

  lemma ReloadKeepsRoot(s: ClientState, log: Log, from: int, es: seq<Event>, attrs: Option<Attributes>)
    requires LayeredCall(s, log, from, es, attrs) && ReplaysLog(log, from, es)
    requires Rooted(s.history, log) && RowsOrUnheard(s)
    ensures Rooted(Reload(s, from, es, attrs).history, log)
    ensures s.history != map[] ==> Reload(s, from, es, attrs).history != map[]
  {
    if s.history != map[] {
      var l :| RootAt(s.history, log, l);
      RootLands(s, log, from, es, attrs, l);
    } else {
      assert Reset(s, from).history == map[];
      RunKeepsRoot(Reset(s, from), log, es);
    }
  }

  lemma RootReplayed(raw: Logs, c: Client, from: int, l: int)
    requires LogOk(LogOf(raw, c)) && from in LogOf(raw, c)
    requires l in LogOf(raw, c) && from <= l && !LogOf(raw, c)[l].change.Delete?
    ensures !OnlyDeletes(EventsFrom(raw, c, from))
  {
    EventsFromLog(raw, c, from);
    var i :| 0 <= i < |EventsFrom(raw, c, from)| && EventsFrom(raw, c, from)[i].lsn == l;
    EventOfLog(raw, c, from, i);
  }

  /** A rooted client is never stripped. */
  lemma RootedIsSpared(w: World, fromTs: int, toTs: int, c: Client)
    requires WorldOk(w) && Rooted(HistoryOf(w.db, c), LogOf(LogsIn(w), c))
    ensures !Strips(w, fromTs, toTs, c)
  {
    if Strips(w, fromTs, toTs, c) {
      var log, from := LogOf(LogsIn(w), c), ResetPoint(LogsIn(w), c, fromTs, toTs);
      var l :| RootAt(HistoryOf(w.db, c), log, l);
      assert l < from ==> l in Below(HistoryOf(w.db, c), from);
      assert LogOk(log) && 0 < from;
      RootReplayed(LogsIn(w), c, from, l);
    }
  }

  /** Staged events are of the kinds their raw rows are. */
  ghost predicate StagedKinds(w: World) {
    forall k | k in w.staged.rows && k in w.raw.rows ::
      w.staged.rows[k].event.change.Delete? == w.raw.rows[k].event.change.Delete?
  }

  ghost predicate KindsOk(w: World) {
    && StagedKinds(w) && AllHeard(w.db)
    && forall c {:trigger HistoryOf(w.db, c)} :: Rooted(HistoryOf(w.db, c), LogOf(LogsIn(w), c))
  }

  /** The step turns no delete into another event and no other event into a delete. */
  ghost predicate KindsStay(w: World, w': World) {
    forall k | k in w.raw.rows && k in w'.raw.rows ::
      w'.raw.rows[k].event.change.Delete? == w.raw.rows[k].event.change.Delete?
  }

  lemma LogKindsStay(w: World, w': World, c: Client, l: int)
    requires KindsStay(w, w') && l in LogOf(LogsIn(w), c) && l in LogOf(LogsIn(w'), c)
    ensures LogOf(LogsIn(w'), c)[l].change.Delete? == LogOf(LogsIn(w), c)[l].change.Delete?
  {
    LogHasRow(w.raw, c, l);
    LogHasRow(w'.raw, c, l);
  }

  lemma LandingKeepsKinds(w: World, landed: seq<Event>, w': World)
    requires WorldOk(w) && LandedFrom(w, landed, w') && KindsOk(w) && KindsStay(w, w')
    ensures KindsOk(w')
  {
    LandingKeepsTrails(w.raw, w.staged, landed);
    forall c
      ensures Rooted(HistoryOf(w'.db, c), LogOf(LogsIn(w'), c))
    {
      var h := HistoryOf(w.db, c);
      if h != map[] {
        var l :| RootAt(h, LogOf(LogsIn(w), c), l);
        if 1 <= l {
          LogKindsStay(w, w', c, l);
        }
        assert RootAt(h, LogOf(LogsIn(w'), c), l);
      }
    }
  }

  lemma StagingKeepsKinds(w: World, copied: seq<Event>, w': World)
    requires WorldOk(w) && StagedFrom(w, copied, w') && KindsOk(w)
    ensures KindsOk(w')
  {
    StagingMirrors(w.raw, w.staged, copied);
  }

  /** The events a streaming run selects for a client are of the logged kinds. */
  lemma SelectedKinds(w: World, es: seq<Event>, c: Client)
    requires WorldOk(w) && StagedKinds(w) && ListsInOrder(w.staged, es)
    ensures KindsMatch(LogOf(LogsIn(w), c), OfClient(Selected(w.db, es), c))
  {
    var own := OfClient(Selected(w.db, es), c);
    forall i | 0 <= i < |own|
      ensures own[i].lsn in LogOf(LogsIn(w), c)
      ensures own[i].change.Delete? == LogOf(LogsIn(w), c)[own[i].lsn].change.Delete?
    {
      OfClientMembers(Selected(w.db, es), c, own[i]);
      SelectedMembers(w.db, es, own[i]);
      var j :| 0 <= j < |es| && es[j] == own[i];
      LogHasRow(w.raw, c, own[i].lsn);
      assert KeyOf(own[i]) == EventKey(c, own[i].lsn);
    }
  }

  lemma StreamingKeepsRoot(w: World, es: seq<Event>, w': World, c: Client)
    requires WorldOk(w) && StreamedFrom(w, es, w') && KindsOk(w)
    ensures Rooted(HistoryOf(w'.db, c), LogOf(LogsIn(w'), c))
  {
    var sel, log := Selected(w.db, es), LogOf(LogsIn(w), c);
    SelectedKinds(w, es, c);
    ClientSeesItsOwn(w.db, sel, c);
    RunKeepsRoot(Project(w.db, c), log, OfClient(sel, c));
    if HistoryOf(w'.db, c) != map[] {
      var g := Run(Project(w.db, c), OfClient(sel, c)).history;
      assert g.Keys == HistoryOf(w'.db, c).Keys;
      var l :| RootAt(g, log, l);
      assert RootAt(HistoryOf(w'.db, c), log, l);
    }
  }

  lemma SeedingKeepsRoot(w: World, w': World, c: Client)
    requires WorldOk(w) && Seeds(w, w') && KindsOk(w)
    ensures Rooted(HistoryOf(w'.db, c), LogOf(LogsIn(w'), c))
  {
    var profile, excluded, orphans :| IsSeedRun(w.db, profile, excluded, orphans, w'.db);
    SoundIsSeedable(w);
    SeedRunOutcome(w.db, profile, excluded, orphans, w'.db, c);
    if SeedIdle(w.db, c) || (!Listed(profile, c) && !HasStopgap(w.db, c)) {
      SeedRunLeaves(w.db, profile, excluded, orphans, w'.db, c);
    } else if c !in excluded {
      assert RootAt(HistoryOf(w'.db, c), LogOf(LogsIn(w'), c), 0);
    }
  }

  lemma {:induction false} LoadingKeepsRoot(db: Db, log: Log, rows: seq<FactRow>, trace: seq<Db>, n: nat, c: Client)
    requires IsFactLoad(db, rows, trace) && n <= |rows| && Rooted(HistoryOf(db, c), log)
    ensures Rooted(HistoryOf(trace[n], c), log)
  {
    if n > 0 {
      LoadingKeepsRoot(db, log, rows, trace, n - 1, c);
      assert LoadedAt(rows, trace, n - 1);
      LoadKeepsRoot(trace[n - 1], log, rows[n - 1], trace[n], c);
    }
  }

  lemma LoadKeepsRoot(db: Db, log: Log, row: FactRow, after: Db, c: Client)
    requires Loaded(db, row, after) && Rooted(HistoryOf(db, c), log)
    ensures Rooted(HistoryOf(after, c), log)
  {
    var h := HistoryOf(db, row.client);
    if c == row.client && Covering(h, Midnight(row.day)) == {} {
      StopgapLsnIsFree(h);
      assert RootAt(HistoryOf(after, c), log, StopgapLsn(h));
    }
  }

  /** The replay of a reload is the log's. */
  lemma ReplayIsLog(raw: Logs, c: Client, from: int)
    requires LogOk(LogOf(raw, c)) && from in LogOf(raw, c)
    ensures ReplaysLog(LogOf(raw, c), from, EventsFrom(raw, c, from))
  {
    EventsFromLog(raw, c, from);
    forall i | 0 <= i < |EventsFrom(raw, c, from)|
      ensures EventsFrom(raw, c, from)[i].lsn in LogOf(raw, c)
      ensures EventsFrom(raw, c, from)[i].change == LogOf(raw, c)[EventsFrom(raw, c, from)[i].lsn].change
    {
      EventOfLog(raw, c, from, i);
    }
  }

  lemma ReloadingKeepsRoot(w: World, w': World, fromTs: int, toTs: int, clients: seq<Client>,
                           traces: seq<Trace>, picks: seq<int>, c: Client)
    requires WorldOk(w) && ReloadedFrom(w, fromTs, toTs, clients, traces, picks, w') && KindsOk(w)
    ensures Rooted(HistoryOf(w'.db, c), LogOf(LogsIn(w'), c))
    ensures HistoryOf(w.db, c) != map[] ==> HistoryOf(w'.db, c) != map[]
  {
    WorldIsReady(w, fromTs, toTs);
    if c !in clients {
      UntouchedBetween(w.db, LogsIn(w), fromTs, toTs, clients, traces, picks, c, 0, |traces|);
    } else {
      var i :| 0 <= i < |clients| && clients[i] == c;
      OwnReloadKeepsRoot(w, fromTs, toTs, clients, traces, picks, i);
    }
  }

  lemma OwnReloadKeepsRoot(w: World, fromTs: int, toTs: int, clients: seq<Client>,
                           traces: seq<Trace>, picks: seq<int>, i: nat)
    requires WorldOk(w) && IsReloadRun(w.db, LogsIn(w), fromTs, toTs, clients, traces, picks) && KindsOk(w)
    requires i < |traces| && Distinct(clients)
    ensures var after := HistoryOf(StateAfter(w.db, traces, |traces|), clients[i]);
      Rooted(after, LogOf(LogsIn(w), clients[i])) && (HistoryOf(w.db, clients[i]) != map[] ==> after != map[])
  {
    var logs, c := LogsIn(w), clients[i];
    WorldIsReady(w, fromTs, toTs);
    CallOfStep(w.db, logs, fromTs, toTs, clients, traces, picks, i);
    OwnTraceReloads(w.db, logs, fromTs, toTs, clients, traces, picks, i);
    OwnReload(w.db, logs, fromTs, toTs, clients, traces, picks, i);
    var from := ResetPoint(logs, c, fromTs, toTs);
    ReplayIsLog(logs, c, from);
    assert Rooted(HistoryOf(w.db, c), LogOf(logs, c)) && RowsOrUnheard(Project(w.db, c));
    ReloadKeepsRoot(Project(traces[i].start, c), LogOf(logs, c), from, EventsFrom(logs, c, from), traces[i].parking.placeholder);
  }

  lemma SparedByKinds(w: World, w': World)
    requires WorldOk(w) && Next(w, w') && KindsOk(w)
    ensures AllHeard(w'.db)
  {
    NextKeepsHeardIff(w, w');
    forall fromTs, toTs, clients, traces, picks, c | ReloadedFrom(w, fromTs, toTs, clients, traces, picks, w')
      ensures !Strips(w, fromTs, toTs, c)
    {
      assert Rooted(HistoryOf(w.db, c), LogOf(LogsIn(w), c));
      RootedIsSpared(w, fromTs, toTs, c);
    }
  }

  lemma TablesKeepRoots(w: World, w': World, c: Client)
    requires WorldOk(w) && KindsOk(w) && (Seeds(w, w') || Streams(w, w') || LoadsFacts(w, w') || Reloads(w, w'))
    ensures Rooted(HistoryOf(w'.db, c), LogOf(LogsIn(w'), c))
  {
    assert Rooted(HistoryOf(w.db, c), LogOf(LogsIn(w), c));
    if Seeds(w, w') {
      SeedingKeepsRoot(w, w', c);
    } else if Streams(w, w') {
      var es :| StreamedFrom(w, es, w');
      StreamingKeepsRoot(w, es, w', c);
    } else if LoadsFacts(w, w') {
      var rows, trace :| LoadedFrom(w, rows, trace) && w'.db == trace[|rows|];
      LoadingKeepsRoot(w.db, LogOf(LogsIn(w), c), rows, trace, |rows|, c);
    } else {
      var fromTs, toTs, clients, traces, picks :| ReloadedFrom(w, fromTs, toTs, clients, traces, picks, w');
      ReloadingKeepsRoot(w, w', fromTs, toTs, clients, traces, picks, c);
    }
  }

  lemma NextKeepsKinds(w: World, w': World)
    requires WorldOk(w) && Next(w, w') && KindsOk(w) && KindsStay(w, w')
    ensures KindsOk(w')
  {
    SparedByKinds(w, w');
    if Lands(w, w') {
      var landed :| LandedFrom(w, landed, w');
      LandingKeepsKinds(w, landed, w');
    } else if Stages(w, w') {
      var copied :| StagedFrom(w, copied, w');
      StagingKeepsKinds(w, copied, w');
    } else {
      forall c
        ensures Rooted(HistoryOf(w'.db, c), LogOf(LogsIn(w'), c))
      {
        TablesKeepRoots(w, w', c);
      }
    }
  }

  /** Up to state n no delivery changed an event's kind. */
  ghost predicate KindsKept(life: seq<World>, n: nat) {
    forall i | 0 <= i < n && i + 1 < |life| :: KindsStay(life[i], life[i + 1])
  }

  lemma {:induction false} AlwaysKindsOk(life: seq<World>, n: nat)
    requires IsLifetime(life) && n < |life| && KindsKept(life, n)
    ensures KindsOk(life[n])
  {
    if n == 0 {
      forall c
        ensures HistoryOf(life[0].db, c) == map[] && WatermarkOf(life[0].db, c) == None
      {
      }
    } else {
      AlwaysKindsOk(life, n - 1);
      AlwaysOk(life, n - 1);
      assert LifeStep(life, n - 1) && KindsStay(life[n - 1], life[n - 1 + 1]);
      NextKeepsKinds(life[n - 1], life[n]);
    }
  }

  /** While deliveries keep the kinds of events, every client with a watermark has rows: what the
      theorems about arrival order ask for holds in every state. */
  lemma AlwaysRowsOrFresh(life: seq<World>, n: nat, c: Client)
    requires IsLifetime(life) && n < |life| && KindsKept(life, n)
    ensures RowsOrUnheard(Project(life[n].db, c)) && RowsOrFresh(Project(life[n].db, c))
  {
    AlwaysKindsOk(life, n);
    assert RowsOrUnheard(Project(life[n].db, c));
  }

  lemma NextKeepsBegun(w: World, w': World, c: Client)
    requires WorldOk(w) && Next(w, w') && KindsOk(w) && Begun(w, c)
    ensures Begun(w', c)
  {
    if Seeds(w, w') {
      SeedingKeepsStart(w, w', c);
    } else if Streams(w, w') {
      var es :| StreamedFrom(w, es, w');
      var l := Pick(RealRows(HistoryOf(w.db, c)).Keys);
      HandleKeepsRow(w.db, Selected(w.db, es), c, l);
      assert l in RealRows(HistoryOf(w'.db, c));
    } else if LoadsFacts(w, w') {
      var rows, trace :| LoadedFrom(w, rows, trace) && w'.db == trace[|rows|];
      LoadingKeepsRows(w.db, rows, trace, |rows|, c);
    } else if Reloads(w, w') {
      var fromTs, toTs, clients, traces, picks :| ReloadedFrom(w, fromTs, toTs, clients, traces, picks, w');
      ReloadingKeepsBegun(w, w', fromTs, toTs, clients, traces, picks, c);
    }
  }

  lemma ReloadingKeepsBegun(w: World, w': World, fromTs: int, toTs: int, clients: seq<Client>,
                            traces: seq<Trace>, picks: seq<int>, c: Client)
    requires WorldOk(w) && ReloadedFrom(w, fromTs, toTs, clients, traces, picks, w') && KindsOk(w) && Begun(w, c)
    ensures Begun(w', c)
  {
    ReloadingKeepsRoot(w, w', fromTs, toTs, clients, traces, picks, c);
    assert HistoryOf(w.db, c) != map[];
    if !Begun(w', c) {
      ReloadKeepsUnreal(w, w', fromTs, toTs, clients, traces, picks, c);
    }
  }

  lemma LifeStepKeepsBegun(life: seq<World>, c: Client, k: nat)
    requires IsLifetime(life) && k + 1 < |life| && KindsKept(life, k) && Begun(life[k], c)
    ensures Begun(life[k + 1], c)
  {
    AlwaysOk(life, k);
    AlwaysKindsOk(life, k);
    assert LifeStep(life, k);
    NextKeepsBegun(life[k], life[k + 1], c);
  }

  lemma FewerKindsKept(life: seq<World>, m: nat, n: nat)
    requires KindsKept(life, n) && m <= n
    ensures KindsKept(life, m)
  {
  }

  /** A client that has a baseline or a version from its log keeps having one. */
  lemma {:induction false} BegunStays(life: seq<World>, c: Client, i: nat, j: nat)
    requires IsLifetime(life) && i <= j < |life| && KindsKept(life, j) && Begun(life[i], c)
    ensures Begun(life[j], c)
  {
    if i < j {
      FewerKindsKept(life, j - 1, j);
      BegunStays(life, c, i, j - 1);
      LifeStepKeepsBegun(life, c, j - 1);
    }
  }

  lemma BegunSteps(life: seq<World>, c: Client, i: nat, j: nat)
    requires IsLifetime(life) && i <= j < |life| && KindsKept(life, j) && Begun(life[i], c)
    ensures forall k | i <= k < j :: SettledStep(life, c, k)
  {
    forall k | i <= k < j
      ensures SettledStep(life, c, k)
    {
      FewerKindsKept(life, k, j);
      BegunStays(life, c, i, k);
    }
  }

  /** Convergence once a client has begun, seeded or not, with kinds kept: however long ago state i
      was and whatever happened since, a full reload leaves the rows and the watermark of the
      present log applied once to the rows of state i, if and only if it starts without a
      placeholder or the log without a delete. */
  lemma BegunConvergesIff(life: seq<World>, i: nat, j: nat, fromTs: int, toTs: int, clients: seq<Client>,
                          traces: seq<Trace>, picks: seq<int>, c: Client)
    requires IsLifetime(life) && i <= j && FullReload(life, j, fromTs, toTs, clients, traces, picks, c)
    requires KindsKept(life, j) && Begun(life[i], c)
    ensures var from := ResetPoint(LogsIn(life[j]), c, fromTs, toTs);
      Similar(Project(life[j + 1].db, c), LogAppliedOnce(life, i, j, fromTs, toTs, c)) <==>
        !NeedsPlaceholder(life[j].db, c, from) || !LogsIn(life[j])[c][from].change.Delete?
  {
    BegunSteps(life, c, i, j);
    LifetimeConvergesIff(life, i, j, fromTs, toTs, clients, traces, picks, c);
    BegunStays(life, c, i, j);
    AlwaysOk(life, j);
    AlwaysKindsOk(life, j);
    ReloadingKeepsRoot(life[j], life[j + 1], fromTs, toTs, clients, traces, picks, c);
    assert HistoryOf(life[j].db, c) != map[];
    NonemptyAlike(HistoryOf(life[j + 1].db, c), LogAppliedOnce(life, i, j, fromTs, toTs, c).history);
  }

  lemma NonemptyAlike(g: History, h: History)
    requires g != map[]
    ensures SameContent(g, h) ==> h != map[]
  {
    var l := Pick(g.Keys);
    assert SameContent(g, h) ==> l in h;
  }
}

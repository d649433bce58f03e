/** Whether a client with a watermark always has rows, which is what tells a delete of nothing from
a stale one (the guard of scd2_apply).  Streaming, loading and seeding keep that; a reload keeps it
unless it deletes every row of the client and finds nothing but deletes to replay.
*/
module WatermarkRows {
  import opened Model
  import opened FiniteSets
  import opened Histories
  import opened ClientCdc
  import opened Lists
  import opened Streaming
  import opened Replay
  import opened ClientReload
  import opened Stopgaps
  import opened StopgapReload
  import opened Beginnings
  import opened Database
  import opened StreamRuns
  import opened ReloadSteps
  import opened ReloadRuns
  import opened BaselineRuns
  import opened FactLoad
  import opened LandingLogs
  import opened Reachability

  /** The client has rows, or no event of it was ever applied. */
  predicate RowsOrUnheard(s: ClientState) {
    s.history != map[] || s.watermark == None
  }

  ghost predicate OnlyDeletes(es: seq<Event>) {
    forall i | 0 <= i < |es| :: es[i].change.Delete?
  }

  lemma StepKeepsHeard(s: ClientState, e: Event)
    requires RowsOrUnheard(s) && 0 < e.lsn
    ensures RowsOrUnheard(Step(s, e))
  {
    GateStep(s, e);
  }

  lemma {:induction false} RunKeepsHeard(s: ClientState, es: seq<Event>)
    requires RowsOrUnheard(s) && forall i | 0 <= i < |es| :: 0 < es[i].lsn
    ensures RowsOrUnheard(Run(s, es))
  {
    if es != [] {
      RunKeepsHeard(s, DropLast(es));
      StepKeepsHeard(Run(s, DropLast(es)), Last(es));
    }
  }

  lemma OnlyDeletesLead(es: seq<Event>)
    ensures OnlyDeletes(es) <==> LeadingDeletes(map[], es) == |es|
  {
    LeadingDeletesSpan(map[], es);
  }

  lemma AllAboveHeard(s: ClientState, log: Log, from: int)
    requires Layered(s, log) && 0 < from && s.history != map[] && Below(s.history, from) == map[]
    ensures s.watermark.Some?
  {
    var l := Pick(s.history.Keys);
    assert l < from ==> l in Below(s.history, from);
    assert l in RealRows(s.history);
  }

  /** A reload strips a client of its rows, its watermark kept, if and only if none of them survives,
      no placeholder stands in and the log holds nothing but deletes from the reset point on. */
  lemma ReloadKeepsHeardIff(s: ClientState, log: Log, from: int, es: seq<Event>, attrs: Option<Attributes>)
    requires LayeredCall(s, log, from, es, attrs) && RowsOrUnheard(s)
    ensures RowsOrUnheard(Reload(s, from, es, attrs)) <==>
      s.history == map[] || Below(s.history, from) != map[] || attrs.Some? || !OnlyDeletes(es)
  {
    var p, t := Reset(s, from), Reload(s, from, es, attrs);
    if s.history == map[] {
      assert p.history == map[];
      forall i | 0 <= i < |es|
        ensures 0 < es[i].lsn
      {
        assert Logged(log, es[i]);
      }
      RunKeepsHeard(p, es);
    } else if attrs.Some? {
      ReloadLandsIff(s, log, from, es, attrs, 0);
    } else if l :| l in Below(s.history, from) {
      SurvivorsStay(s, from);
      RunKeepsRows(p, es);
      assert l in p.history;
    } else {
      AllAboveHeard(s, log, from);
      SurvivorsStay(s, from);
      ReplayStart(s, log, from, es, None);
      LandsNothingIff(p, es);
      ReplayProgress(p, es, |es|);
      assert es[..|es|] == es;
      OnlyDeletesLead(es);
    }
  }

  ghost predicate AllHeard(db: Db) {
    forall c {:trigger Project(db, c)} :: RowsOrUnheard(Project(db, c))
  }

  lemma StreamingKeepsHeard(db: Db, logs: Logs, es: seq<Event>, c: Client)
    requires LogsOk(logs) && AllInLogs(logs, es) && RowsOrUnheard(Project(db, c))
    ensures RowsOrUnheard(Project(Handle(db, es), c))
  {
    var own := OfClient(es, c);
    OfClientLogged(logs, es, c);
    ClientSeesItsOwn(db, es, c);
    forall i | 0 <= i < |own|
      ensures 0 < own[i].lsn
    {
      assert Logged(LogOf(logs, c), own[i]);
    }
    RunKeepsHeard(Project(db, c), own);
    assert HistoryOf(Handle(db, es), c).Keys == Run(Project(db, c), own).history.Keys;
  }

  lemma SeedingKeepsHeard(w: World, w': World, c: Client)
    requires WorldOk(w) && Seeds(w, w') && RowsOrUnheard(Project(w.db, c))
    ensures RowsOrUnheard(Project(w'.db, c))
  {
    var profile, excluded, orphans :| IsSeedRun(w.db, profile, excluded, orphans, w'.db);
    SoundIsSeedable(w);
    SeedRunKeepsTables(w.db, profile, excluded, orphans, w'.db);
    if SeedIdle(w.db, c) || (!Listed(profile, c) && !HasStopgap(w.db, c)) {
      SeedRunLeaves(w.db, profile, excluded, orphans, w'.db, c);
    } else {
      SeedRunOutcome(w.db, profile, excluded, orphans, w'.db, c);
      assert c !in excluded ==> 0 in HistoryOf(w'.db, c);
    }
  }

  lemma {:induction false} LoadingKeepsHeard(db: Db, rows: seq<FactRow>, trace: seq<Db>, n: nat, c: Client)
    requires IsFactLoad(db, rows, trace) && n <= |rows| && RowsOrUnheard(Project(db, c))
    ensures RowsOrUnheard(Project(trace[n], c))
  {
    if n > 0 {
      LoadingKeepsHeard(db, rows, trace, n - 1, c);
      assert LoadedAt(rows, trace, n - 1);
      LoadKeepsHeard(trace[n - 1], rows[n - 1], trace[n], c);
    }
  }

  lemma LoadKeepsHeard(db: Db, row: FactRow, after: Db, c: Client)
    requires Loaded(db, row, after) && RowsOrUnheard(Project(db, c))
    ensures RowsOrUnheard(Project(after, c))
  {
    var h := HistoryOf(db, row.client);
    if c == row.client && Covering(h, Midnight(row.day)) == {} {
      assert StopgapLsn(h) in HistoryOf(after, c);
    }
  }

  /** Reloading this window strips client c. */
  ghost predicate Strips(w: World, fromTs: int, toTs: int, c: Client) {
    && c in Affected(LogsIn(w), fromTs, toTs)
    && var from := ResetPoint(LogsIn(w), c, fromTs, toTs);
      && HistoryOf(w.db, c) != map[] && Below(HistoryOf(w.db, c), from) == map[]
      && !NeedsPlaceholder(w.db, c, from) && OnlyDeletes(EventsFrom(LogsIn(w), c, from))
  }

  lemma ReloadingKeepsHeardIff(w: World, w': World, fromTs: int, toTs: int, clients: seq<Client>,
                               traces: seq<Trace>, picks: seq<int>, c: Client)
    requires WorldOk(w) && ReloadedFrom(w, fromTs, toTs, clients, traces, picks, w') && RowsOrUnheard(Project(w.db, c))
    ensures RowsOrUnheard(Project(w'.db, c)) <==> !Strips(w, fromTs, toTs, c)
  {
    WorldIsReady(w, fromTs, toTs);
    if c !in clients {
      UntouchedBetween(w.db, LogsIn(w), fromTs, toTs, clients, traces, picks, c, 0, |traces|);
    } else {
      var i :| 0 <= i < |clients| && clients[i] == c;
      OwnReloadHeardIff(w, fromTs, toTs, clients, traces, picks, i);
    }
  }

  lemma OwnReloadHeardIff(w: World, fromTs: int, toTs: int, clients: seq<Client>,
                          traces: seq<Trace>, picks: seq<int>, i: nat)
    requires WorldOk(w) && IsReloadRun(w.db, LogsIn(w), fromTs, toTs, clients, traces, picks)
    requires i < |traces| && Distinct(clients) && RowsOrUnheard(Project(w.db, clients[i]))
    ensures RowsOrUnheard(Project(StateAfter(w.db, traces, |traces|), clients[i])) <==> !Strips(w, fromTs, toTs, clients[i])
  {
    var logs, c := LogsIn(w), clients[i];
    WorldIsReady(w, fromTs, toTs);
    CallOfStep(w.db, logs, fromTs, toTs, clients, traces, picks, i);
    RunReloads(w.db, logs, fromTs, toTs, clients, traces, picks, i);
    PlaceholderIffNeeded(w.db, logs, fromTs, toTs, clients, traces, picks, i);
    assert ShapeOk(w, c);
    RunCall(w.db, logs, fromTs, toTs, clients, traces, picks, i, Project(w.db, c));
    var from := ResetPoint(logs, c, fromTs, toTs);
    var p := traces[i].parking.placeholder;
    ReloadKeepsHeardIff(Project(w.db, c), LogOf(logs, c), from, EventsFrom(logs, c, from), p);
    assert HistoryOf(StateAfter(w.db, traces, |traces|), c).Keys ==
      Reload(Project(w.db, c), from, EventsFrom(logs, c, from), p).history.Keys;
  }

  /** A step that strips no client. */
  ghost predicate SparesRows(w: World, w': World) {
    forall fromTs, toTs, clients, traces, picks {:trigger ReloadedFrom(w, fromTs, toTs, clients, traces, picks, w')} |
      ReloadedFrom(w, fromTs, toTs, clients, traces, picks, w') :: forall c :: !Strips(w, fromTs, toTs, c)
  }

  lemma NextKeepsHeardIff(w: World, w': World)
    requires WorldOk(w) && Next(w, w') && AllHeard(w.db)
    ensures AllHeard(w'.db) <==> SparesRows(w, w')
  {
    forall fromTs, toTs, clients, traces, picks | ReloadedFrom(w, fromTs, toTs, clients, traces, picks, w')
      ensures AllHeard(w'.db) <==> forall c :: !Strips(w, fromTs, toTs, c)
    {
      forall c
        ensures RowsOrUnheard(Project(w'.db, c)) <==> !Strips(w, fromTs, toTs, c)
      {
        assert RowsOrUnheard(Project(w.db, c));
        ReloadingKeepsHeardIff(w, w', fromTs, toTs, clients, traces, picks, c);
      }
    }
    if !Reloads(w, w') {
      QuietStepKeepsHeard(w, w');
    }
  }

  lemma QuietStepKeepsHeard(w: World, w': World)
    requires WorldOk(w) && Next(w, w') && !Reloads(w, w') && AllHeard(w.db)
    ensures AllHeard(w'.db)
  {
    forall c
      ensures RowsOrUnheard(Project(w'.db, c))
    {
      assert RowsOrUnheard(Project(w.db, c));
      if Seeds(w, w') {
        SeedingKeepsHeard(w, w', c);
      } else if Streams(w, w') {
        var es :| StreamedFrom(w, es, w');
        StagedIsLogged(w.db, w.raw, w.staged, es);
        StreamingKeepsHeard(w.db, LogsIn(w), Selected(w.db, es), c);
      } else if LoadsFacts(w, w') {
        var rows, trace :| LoadedFrom(w, rows, trace) && w'.db == trace[|rows|];
        LoadingKeepsHeard(w.db, rows, trace, |rows|, c);
      }
    }
  }

  ghost predicate HeardAt(life: seq<World>, i: nat) {
    i < |life| && AllHeard(life[i].db)
  }

  ghost predicate SparesAt(life: seq<World>, i: nat) {
    i + 1 < |life| && SparesRows(life[i], life[i + 1])
  }

  lemma LifeStepHeardIff(life: seq<World>, i: nat)
    requires IsLifetime(life) && i + 1 < |life| && HeardAt(life, i)
    ensures HeardAt(life, i + 1) <==> SparesAt(life, i)
  {
    AlwaysOk(life, i);
    assert LifeStep(life, i);
    NextKeepsHeardIff(life[i], life[i + 1]);
  }

  /** In a lifetime every client with a watermark always has rows if and only if no reload strips
      one. */
  lemma AlwaysHeardIff(life: seq<World>, n: nat)
    requires IsLifetime(life) && n < |life|
    ensures (forall i | 0 <= i <= n :: HeardAt(life, i)) <==> forall i | 0 <= i < n :: SparesAt(life, i)
  {
    var states, steps := seq(n + 1, i => i >= 0 && HeardAt(life, i)), seq(n, i => i >= 0 && SparesAt(life, i));
    assert HeardAt(life, 0);
    forall i | 0 <= i < n && states[i]
      ensures states[i + 1] <==> steps[i]
    {
      LifeStepHeardIff(life, i);
    }
    StateByState(states, steps);
    assert forall i | 0 <= i <= n :: states[i] == HeardAt(life, i);
    assert forall i | 0 <= i < n :: steps[i] == SparesAt(life, i);
  }
}

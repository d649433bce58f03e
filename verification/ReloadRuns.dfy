/** historical_reload over all the clients with an event in the window (reload.py). */
module ReloadRuns {
  import opened Model
  import opened FiniteSets
  import opened Histories
  import opened ClientCdc
  import opened Lists
  import opened Rewind
  import opened Streaming
  import opened Replay
  import opened ClientReload
  import opened Stopgaps
  import opened StopgapReload
  import opened Beginnings
  import opened Database
  import opened StreamRuns
  import opened FactIntegrity
  import opened ReloadSteps

  /** The lsns of a log with a commit time in [fromTs, toTs). */
  function Hits(log: Log, fromTs: int, toTs: int): set<int> {
    set l | l in log && fromTs <= log[l].commitTs < toTs
  }

  /** SELECT client_id ... WHERE commit_ts in the window GROUP BY client_id. */
  function Affected(raw: Logs, fromTs: int, toTs: int): set<Client> {
    set c | c in raw && Hits(raw[c], fromTs, toTs) != {}
  }

  /** MIN(lsn) of the group. */
  function ResetPoint(raw: Logs, c: Client, fromTs: int, toTs: int): (from: int)
    requires c in Affected(raw, fromTs, toTs)
    ensures from in raw[c] && fromTs <= raw[c][from].commitTs < toTs
    ensures forall l | l in Hits(raw[c], fromTs, toTs) :: from <= l
  {
    Min(Hits(raw[c], fromTs, toTs))
  }

  /** A client is reloaded if and only if it has an event in the window, and the reset point cuts
      its log exactly at the start of the window: what is replayed is what was committed from
      then on. */
  lemma ReplaysFromWindowOn(raw: Logs, c: Client, fromTs: int, toTs: int)
    requires LogOk(LogOf(raw, c))
    ensures c in Affected(raw, fromTs, toTs) <==>
      exists l :: l in LogOf(raw, c) && fromTs <= LogOf(raw, c)[l].commitTs < toTs
    ensures c in Affected(raw, fromTs, toTs) ==> forall l | l in raw[c] ::
      ResetPoint(raw, c, fromTs, toTs) <= l <==> fromTs <= raw[c][l].commitTs
  {
    var log := LogOf(raw, c);
    if l :| l in log && fromTs <= log[l].commitTs < toTs {
      assert l in Hits(raw[c], fromTs, toTs);
    }
    if c in Affected(raw, fromTs, toTs) {
      var from := ResetPoint(raw, c, fromTs, toTs);
      forall l | l in log
        ensures from <= l <==> fromTs <= log[l].commitTs
      {
        assert fromTs <= log[l].commitTs < toTs ==> l in Hits(log, fromTs, toTs);
      }
    }
  }

  /** The raw events of a client from an lsn on, ORDER BY lsn. */
  function EventsFrom(raw: Logs, c: Client, from: int): seq<Event> {
    var log := LogFrom(LogOf(raw, c), from);
    var order := Sorted(log.Keys);
    seq(|order|, i requires 0 <= i < |order| =>
      assert order[i] in order;
      Event(c, order[i], log[order[i]].commitTs, log[order[i]].change))
  }

  /** Each replayed event is the log's, with its present values. */
  lemma EventOfLog(raw: Logs, c: Client, from: int, i: nat)
    requires i < |EventsFrom(raw, c, from)|
    ensures var e := EventsFrom(raw, c, from)[i];
      e.lsn in LogOf(raw, c) && from <= e.lsn
      && e == Event(c, e.lsn, LogOf(raw, c)[e.lsn].commitTs, LogOf(raw, c)[e.lsn].change)
  {
    var order := Sorted(LogFrom(LogOf(raw, c), from).Keys);
    assert order[i] in order;
  }

  lemma EventsFromLog(raw: Logs, c: Client, from: int)
    requires LogOk(LogOf(raw, c)) && from in LogOf(raw, c)
    ensures var es := EventsFrom(raw, c, from);
      && AscendingEvents(es) && es != [] && es[0].lsn == from
      && (forall i | 0 <= i < |es| :: es[i].client == c && Logged(LogOf(raw, c), es[i]))
      && forall l | l in LogOf(raw, c) && from <= l :: exists i :: 0 <= i < |es| && es[i].lsn == l
  {
    var log := LogFrom(LogOf(raw, c), from);
    var order, es := Sorted(log.Keys), EventsFrom(raw, c, from);
    forall i | 0 <= i < |es|
      ensures es[i].client == c && es[i].lsn == order[i] && Logged(LogOf(raw, c), es[i])
    {
      assert order[i] in log.Keys;
    }
    forall l | l in LogOf(raw, c) && from <= l
      ensures exists i :: 0 <= i < |es| && es[i].lsn == l
    {
      assert l in log.Keys && l in order;
      var i :| 0 <= i < |order| && order[i] == l;
      assert es[i].lsn == l;
    }
    var k :| 0 <= k < |es| && es[k].lsn == from;
    assert order[0] in log.Keys;
    assert from <= order[0] <= order[k];
  }

  /** One reload after another, each from where the last one ended. */
  ghost predicate IsReloadRun(start: Db, raw: Logs, fromTs: int, toTs: int,
                              clients: seq<Client>, traces: seq<Trace>, picks: seq<int>) {
    && |clients| == |traces| == |picks|
    && (forall c | c in clients :: c in Affected(raw, fromTs, toTs))
    && forall i {:trigger IsReloadAt(start, raw, fromTs, toTs, clients, traces, picks, i)} | 0 <= i < |clients| ::
         IsReloadAt(start, raw, fromTs, toTs, clients, traces, picks, i)
  }

  ghost predicate IsReloadAt(start: Db, raw: Logs, fromTs: int, toTs: int,
                             clients: seq<Client>, traces: seq<Trace>, picks: seq<int>, i: nat)
    requires i < |clients| == |traces| == |picks|
    requires forall c | c in clients :: c in Affected(raw, fromTs, toTs)
  {
    var from := ResetPoint(raw, clients[i], fromTs, toTs);
    && IsReload(traces[i], clients[i], from, EventsFrom(raw, clients[i], from), picks[i])
    && traces[i].start == StateAfter(start, traces, i)
  }

  /** The tables after n reloads. */
  function StateAfter(start: Db, traces: seq<Trace>, n: nat): Db
    requires n <= |traces|
  {
    if n == 0 then start else traces[n - 1].finish
  }

  /** A run extended by one more client. */
  lemma ExtendRun(start: Db, raw: Logs, fromTs: int, toTs: int,
                  clients: seq<Client>, traces: seq<Trace>, picks: seq<int>, c: Client, tr: Trace, pick: int)
    requires IsReloadRun(start, raw, fromTs, toTs, clients, traces, picks) && c in Affected(raw, fromTs, toTs)
    requires var from := ResetPoint(raw, c, fromTs, toTs); IsReload(tr, c, from, EventsFrom(raw, c, from), pick)
    requires tr.start == StateAfter(start, traces, |traces|)
    ensures IsReloadRun(start, raw, fromTs, toTs, clients + [c], traces + [tr], picks + [pick])
  {
    var cs, ts, ps := clients + [c], traces + [tr], picks + [pick];
    forall i | 0 <= i < |cs|
      ensures IsReloadAt(start, raw, fromTs, toTs, cs, ts, ps, i)
    {
      assert StateAfter(start, ts, i) == StateAfter(start, traces, i);
      if i < |clients| {
        SameReloadAt(start, raw, fromTs, toTs, clients, traces, picks, cs, ts, ps, i);
      }
    }
  }

  lemma SameReloadAt(start: Db, raw: Logs, fromTs: int, toTs: int,
                     clients: seq<Client>, traces: seq<Trace>, picks: seq<int>,
                     cs: seq<Client>, ts: seq<Trace>, ps: seq<int>, i: nat)
    requires IsReloadRun(start, raw, fromTs, toTs, clients, traces, picks) && i < |clients|
    requires i < |cs| == |ts| == |ps| && forall d | d in cs :: d in Affected(raw, fromTs, toTs)
    requires cs[i] == clients[i] && ts[i] == traces[i] && ps[i] == picks[i]
    requires StateAfter(start, ts, i) == StateAfter(start, traces, i)
    ensures IsReloadAt(start, raw, fromTs, toTs, cs, ts, ps, i)
  {
    assert IsReloadAt(start, raw, fromTs, toTs, clients, traces, picks, i);
  }

  /** A run from start to end that has handled each affected client once. */
  ghost predicate IsWholeRun(start: Db, end: Db, raw: Logs, fromTs: int, toTs: int,
                             clients: seq<Client>, traces: seq<Trace>, picks: seq<int>) {
    && IsReloadRun(start, raw, fromTs, toTs, clients, traces, picks) && Distinct(clients)
    && end == StateAfter(start, traces, |traces|)
    && forall c :: c in clients <==> c in Affected(raw, fromTs, toTs)
  }

  lemma RunOneMoreClient(start: Db, raw: Logs, fromTs: int, toTs: int, clients: seq<Client>, n: nat,
                         traces: seq<Trace>, picks: seq<int>, tr: Trace, pick: int)
    requires n < |clients| && clients[n] in Affected(raw, fromTs, toTs)
    requires IsReloadRun(start, raw, fromTs, toTs, clients[..n], traces, picks) && tr.start == StateAfter(start, traces, n)
    requires var c := clients[n]; var from := ResetPoint(raw, c, fromTs, toTs); IsReload(tr, c, from, EventsFrom(raw, c, from), pick)
    ensures IsReloadRun(start, raw, fromTs, toTs, clients[..n + 1], traces + [tr], picks + [pick])
    ensures Replayed(raw, fromTs, toTs, clients[..n + 1]) ==
      Replayed(raw, fromTs, toTs, clients[..n]) + |EventsFrom(raw, clients[n], ResetPoint(raw, clients[n], fromTs, toTs))|
  {
    ExtendRun(start, raw, fromTs, toTs, clients[..n], traces, picks, clients[n], tr, pick);
    assert clients[..n] + [clients[n]] == clients[..n + 1];
    assert DropLast(clients[..n + 1]) == clients[..n];
  }

  /** How many events the run hands over. */
  function Replayed(raw: Logs, fromTs: int, toTs: int, clients: seq<Client>): nat
    requires forall c | c in clients :: c in Affected(raw, fromTs, toTs)
  {
    if clients == [] then 0
    else
      var c := Last(clients);
      Replayed(raw, fromTs, toTs, DropLast(clients)) + |EventsFrom(raw, c, ResetPoint(raw, c, fromTs, toTs))|
  }

  ghost predicate Distinct<T>(s: seq<T>) {
    forall i, j | 0 <= i < j < |s| :: s[i] != s[j]
  }

  /** What every table state is expected to satisfy. */
  ghost predicate Sound(db: Db, raw: Logs) {
    KeysUnique(db) && FactsAnchored(db) && DaysInRange(db) && LogsOk(raw)
  }

  /** Sound tables, and real rows that follow the log for any client the window reaches. */
  ghost predicate Ready(db: Db, raw: Logs, fromTs: int, toTs: int) {
    Sound(db, raw) && forall c | c in Affected(raw, fromTs, toTs) :: LayeredIn(db, raw, c)
  }

  lemma SoundIsReloadable(db: Db, raw: Logs, c: Client, from: int)
    requires Sound(db, raw) && LayeredIn(db, raw, c) && c in raw && from in raw[c]
    ensures Reloadable(db, raw, c, from, EventsFrom(raw, c, from))
  {
    EventsFromLog(raw, c, from);
  }

  lemma ReloadKeepsDays(tr: Trace, raw: Logs, c: Client, from: int, es: seq<Event>, pick: int)
    requires Reloadable(tr.start, raw, c, from, es) && IsReload(tr, c, from, es, pick)
    ensures DaysInRange(tr.finish)
  {
    UnparkedStay(tr, c, from, es, pick);
    forall id | id in tr.finish.facts
      ensures tr.finish.facts[id].day == tr.start.facts[id].day
    {
      OnlyParkedFactsMove(tr, raw, c, from, es, pick, id);
    }
  }

  lemma ReloadLayers(tr: Trace, raw: Logs, c: Client, from: int, es: seq<Event>, pick: int)
    requires Reloadable(tr.start, raw, c, from, es) && IsReload(tr, c, from, es, pick)
    ensures LayeredIn(tr.finish, raw, c) && tr.start.nextKey <= tr.finish.nextKey
    ensures SameStopgapLsns(tr.start, tr.finish, c)
  {
    var s := Project(tr.start, c);
    ReloadableCalls(tr, raw, c, from, es, pick);
    TraceReloads(tr, raw, c, from, es, pick);
    ReloadKeepsLayered(s, LogOf(raw, c), from, es, tr.parking.placeholder);
    ReloadDrawsKeys(s, from, es, tr.parking.placeholder);
    assert Project(tr.finish, c).nextKey == tr.finish.nextKey;
    forall l | l < 0
      ensures l in HistoryOf(tr.start, c) <==> l in HistoryOf(tr.finish, c)
    {
      ReloadKeepsStopgapLsns(s, LogOf(raw, c), from, es, tr.parking.placeholder, l);
    }
  }

  /** Client c has stopgaps of the same lsns in both. */
  ghost predicate SameStopgapLsns(db: Db, after: Db, c: Client) {
    forall l | l < 0 :: l in HistoryOf(db, c) <==> l in HistoryOf(after, c)
  }

  lemma ReloadDrawsKeys(s: ClientState, from: int, es: seq<Event>, attrs: Option<Attributes>)
    ensures s.nextKey <= Reload(s, from, es, attrs).nextKey
  {
    KeysGrow(Reset(InsertPlaceholder(s, from, attrs), from), es);
  }

  /** One client's reload keeps the tables sound and the client's real rows on its log. */
  lemma ReloadKeepsSound(tr: Trace, raw: Logs, c: Client, from: int, es: seq<Event>, pick: int)
    requires Sound(tr.start, raw) && Reloadable(tr.start, raw, c, from, es) && IsReload(tr, c, from, es, pick)
    ensures Sound(tr.finish, raw) && LayeredIn(tr.finish, raw, c) && SameStopgapLsns(tr.start, tr.finish, c)
    ensures tr.start.nextKey <= tr.finish.nextKey
  {
    ReloadKeepsIntegrity(tr, raw, c, from, es, pick);
    ReloadKeepsDays(tr, raw, c, from, es, pick);
    ReloadLayers(tr, raw, c, from, es, pick);
  }

  lemma SameRowsSameLayers(db: Db, after: Db, raw: Logs, d: Client)
    requires LayeredIn(db, raw, d) && db.nextKey <= after.nextKey
    requires HistoryOf(after, d) == HistoryOf(db, d) && WatermarkOf(after, d) == WatermarkOf(db, d)
    ensures LayeredIn(after, raw, d) && SameStopgapLsns(db, after, d)
  {
  }

  lemma ReloadKeepsAllLayered(tr: Trace, raw: Logs, c: Client, from: int, es: seq<Event>, pick: int, d: Client)
    requires Sound(tr.start, raw) && Reloadable(tr.start, raw, c, from, es) && IsReload(tr, c, from, es, pick)
    requires LayeredIn(tr.start, raw, d)
    ensures LayeredIn(tr.finish, raw, d) && SameStopgapLsns(tr.start, tr.finish, d)
  {
    ReloadKeepsSound(tr, raw, c, from, es, pick);
    if d != c {
      OthersUntouched(tr, raw, c, from, es, pick, d);
      SameRowsSameLayers(tr.start, tr.finish, raw, d);
    }
  }

  /** Sound tables in which every client that was layered still is, over the same stopgaps. */
  ghost predicate SoundAfter(start: Db, raw: Logs, db: Db) {
    && Sound(db, raw)
    && forall c {:trigger LayeredIn(db, raw, c)} | LayeredIn(start, raw, c) ::
         LayeredIn(db, raw, c) && SameStopgapLsns(start, db, c)
  }

  lemma OneReloadKeepsSound(start: Db, tr: Trace, raw: Logs, c: Client, from: int, pick: int)
    requires SoundAfter(start, raw, tr.start) && LayeredIn(start, raw, c) && c in raw && from in raw[c]
    requires IsReload(tr, c, from, EventsFrom(raw, c, from), pick)
    ensures SoundAfter(start, raw, tr.finish)
  {
    var es := EventsFrom(raw, c, from);
    assert LayeredIn(tr.start, raw, c);
    SoundIsReloadable(tr.start, raw, c, from);
    ReloadKeepsSound(tr, raw, c, from, es, pick);
    forall d | LayeredIn(start, raw, d)
      ensures LayeredIn(tr.finish, raw, d) && SameStopgapLsns(start, tr.finish, d)
    {
      assert LayeredIn(tr.start, raw, d);
      ReloadKeepsAllLayered(tr, raw, c, from, es, pick, d);
    }
  }

  lemma StepKeepsSound(start: Db, raw: Logs, fromTs: int, toTs: int,
                       clients: seq<Client>, traces: seq<Trace>, picks: seq<int>, i: nat)
    requires IsReloadRun(start, raw, fromTs, toTs, clients, traces, picks) && i < |traces|
    requires forall c | c in Affected(raw, fromTs, toTs) :: LayeredIn(start, raw, c)
    requires SoundAfter(start, raw, StateAfter(start, traces, i))
    ensures SoundAfter(start, raw, traces[i].finish)
  {
    var c := clients[i];
    assert c in clients;
    assert IsReloadAt(start, raw, fromTs, toTs, clients, traces, picks, i);
    OneReloadKeepsSound(start, traces[i], raw, c, ResetPoint(raw, c, fromTs, toTs), picks[i]);
  }

  lemma {:induction false} RunKeepsSound(start: Db, raw: Logs, fromTs: int, toTs: int,
                                         clients: seq<Client>, traces: seq<Trace>, picks: seq<int>, n: nat)
    requires IsReloadRun(start, raw, fromTs, toTs, clients, traces, picks) && n <= |traces|
    requires Ready(start, raw, fromTs, toTs)
    ensures SoundAfter(start, raw, StateAfter(start, traces, n))
  {
    if n > 0 {
      RunKeepsSound(start, raw, fromTs, toTs, clients, traces, picks, n - 1);
      StepKeepsSound(start, raw, fromTs, toTs, clients, traces, picks, n - 1);
    }
  }

  /** The next reload of a run may rely on the tables as well. */
  lemma NextIsReloadable(start: Db, raw: Logs, fromTs: int, toTs: int,
                         clients: seq<Client>, traces: seq<Trace>, picks: seq<int>, c: Client)
    requires IsReloadRun(start, raw, fromTs, toTs, clients, traces, picks) && c in Affected(raw, fromTs, toTs)
    ensures var from := ResetPoint(raw, c, fromTs, toTs);
      Ready(start, raw, fromTs, toTs) ==>
        Reloadable(StateAfter(start, traces, |traces|), raw, c, from, EventsFrom(raw, c, from))
  {
    if Ready(start, raw, fromTs, toTs) {
      RunKeepsSound(start, raw, fromTs, toTs, clients, traces, picks, |traces|);
      assert LayeredIn(StateAfter(start, traces, |traces|), raw, c);
      SoundIsReloadable(StateAfter(start, traces, |traces|), raw, c, ResetPoint(raw, c, fromTs, toTs));
    }
  }

  /** Each reload of a run starts from tables it may rely on. */
  lemma StepOfRun(start: Db, raw: Logs, fromTs: int, toTs: int,
                  clients: seq<Client>, traces: seq<Trace>, picks: seq<int>, i: nat)
    requires IsReloadRun(start, raw, fromTs, toTs, clients, traces, picks) && i < |traces|
    requires Ready(start, raw, fromTs, toTs)
    ensures clients[i] in Affected(raw, fromTs, toTs)
    ensures var c, from := clients[i], ResetPoint(raw, clients[i], fromTs, toTs);
      && traces[i].start == StateAfter(start, traces, i)
      && IsReload(traces[i], c, from, EventsFrom(raw, c, from), picks[i])
      && Reloadable(traces[i].start, raw, c, from, EventsFrom(raw, c, from))
  {
    var c := clients[i];
    assert c in clients;
    RunKeepsSound(start, raw, fromTs, toTs, clients, traces, picks, i);
    assert IsReloadAt(start, raw, fromTs, toTs, clients, traces, picks, i);
    assert LayeredIn(traces[i].start, raw, c);
    SoundIsReloadable(traces[i].start, raw, c, ResetPoint(raw, c, fromTs, toTs));
  }

  /** Client d's rows, watermark and facts are the same in both. */
  ghost predicate SameFor(db: Db, after: Db, d: Client) {
    && HistoryOf(after, d) == HistoryOf(db, d)
    && WatermarkOf(after, d) == WatermarkOf(db, d)
    && (forall id | id in db.facts && db.facts[id].client == d :: id in after.facts && after.facts[id] == db.facts[id])
    && forall id | id in after.facts && after.facts[id].client == d :: id in db.facts && after.facts[id] == db.facts[id]
  }

  lemma OneReloadLeaves(tr: Trace, raw: Logs, c: Client, from: int, es: seq<Event>, pick: int, d: Client)
    requires Reloadable(tr.start, raw, c, from, es) && IsReload(tr, c, from, es, pick) && d != c
    ensures SameFor(tr.start, tr.finish, d)
  {
    OthersUntouched(tr, raw, c, from, es, pick, d);
    forall id | id in tr.start.facts && tr.start.facts[id].client == d
      ensures id in tr.finish.facts && tr.finish.facts[id] == tr.start.facts[id]
    {
      OnlyParkedFactsMove(tr, raw, c, from, es, pick, id);
    }
    forall id | id in tr.finish.facts && tr.finish.facts[id].client == d
      ensures id in tr.start.facts && tr.finish.facts[id] == tr.start.facts[id]
    {
      ReloadMakesNoFacts(tr, raw, c, from, es, pick, id);
      OnlyParkedFactsMove(tr, raw, c, from, es, pick, id);
    }
  }

  lemma StepLeaves(start: Db, raw: Logs, fromTs: int, toTs: int,
                   clients: seq<Client>, traces: seq<Trace>, picks: seq<int>, i: nat, d: Client)
    requires IsReloadRun(start, raw, fromTs, toTs, clients, traces, picks) && i < |traces|
    requires Ready(start, raw, fromTs, toTs) && clients[i] != d
    ensures SameFor(StateAfter(start, traces, i), StateAfter(start, traces, i + 1), d)
  {
    StepOfRun(start, raw, fromTs, toTs, clients, traces, picks, i);
    var c, from := clients[i], ResetPoint(raw, clients[i], fromTs, toTs);
    OneReloadLeaves(traces[i], raw, c, from, EventsFrom(raw, c, from), picks[i], d);
  }

  lemma SameForChain(a: Db, b: Db, c: Db, d: Client)
    requires SameFor(a, b, d) && SameFor(b, c, d)
    ensures SameFor(a, c, d)
  {
    forall id | id in a.facts && a.facts[id].client == d
      ensures id in c.facts && c.facts[id] == a.facts[id]
    {
      assert id in b.facts;
    }
    forall id | id in c.facts && c.facts[id].client == d
      ensures id in a.facts && c.facts[id] == a.facts[id]
    {
      assert id in b.facts;
    }
  }

  /** A client is untouched by the reloads of the others. */
  lemma {:induction false} UntouchedBetween(start: Db, raw: Logs, fromTs: int, toTs: int,
                                            clients: seq<Client>, traces: seq<Trace>, picks: seq<int>,
                                            d: Client, m: nat, n: nat)
    requires IsReloadRun(start, raw, fromTs, toTs, clients, traces, picks) && m <= n <= |traces|
    requires Ready(start, raw, fromTs, toTs)
    requires forall i | m <= i < n :: clients[i] != d
    ensures SameFor(StateAfter(start, traces, m), StateAfter(start, traces, n), d)
  {
    if m < n {
      UntouchedBetween(start, raw, fromTs, toTs, clients, traces, picks, d, m, n - 1);
      StepLeaves(start, raw, fromTs, toTs, clients, traces, picks, n - 1, d);
      SameForChain(StateAfter(start, traces, m), StateAfter(start, traces, n - 1), StateAfter(start, traces, n), d);
    }
  }

  /** A reload of the window changes nothing of a client without an event in it. */
  lemma OutsideWindowUntouched(start: Db, raw: Logs, fromTs: int, toTs: int,
                               clients: seq<Client>, traces: seq<Trace>, picks: seq<int>, d: Client)
    requires IsReloadRun(start, raw, fromTs, toTs, clients, traces, picks)
    requires Ready(start, raw, fromTs, toTs)
    requires d !in Affected(raw, fromTs, toTs)
    ensures SameFor(start, StateAfter(start, traces, |traces|), d)
  {
    UntouchedBetween(start, raw, fromTs, toTs, clients, traces, picks, d, 0, |traces|);
  }

  lemma ReloadIgnoresKeys(a: ClientState, b: ClientState, from: int, es: seq<Event>, attrs: Option<Attributes>)
    requires Similar(a, b)
    ensures Similar(Reload(a, from, es, attrs), Reload(b, from, es, attrs))
  {
    var p, q := InsertPlaceholder(a, from, attrs), InsertPlaceholder(b, from, attrs);
    assert SameContent(p.history, q.history);
    ResetIgnoresKeys(p, q, from);
    RunIgnoresKeys(Reset(p, from), Reset(q, from), es);
    var g, h := Rebuild(a, from, es, attrs).history, Rebuild(b, from, es, attrs).history;
    forall l | l in g - {from - 1}
      ensures l in h - {from - 1} && g[l].(key := 0) == h[l].(key := 0)
    {
    }
    assert (g - {from - 1}).Keys == (h - {from - 1}).Keys;
  }

  /** Where client i of a run stands before and after its own reload. */
  lemma OwnReload(start: Db, raw: Logs, fromTs: int, toTs: int,
                  clients: seq<Client>, traces: seq<Trace>, picks: seq<int>, i: nat)
    requires IsReloadRun(start, raw, fromTs, toTs, clients, traces, picks) && i < |traces| && Distinct(clients)
    requires Ready(start, raw, fromTs, toTs)
    ensures SameFor(start, traces[i].start, clients[i])
    ensures SameFor(traces[i].finish, StateAfter(start, traces, |traces|), clients[i])
  {
    UntouchedBetween(start, raw, fromTs, toTs, clients, traces, picks, clients[i], 0, i);
    UntouchedBetween(start, raw, fromTs, toTs, clients, traces, picks, clients[i], i + 1, |traces|);
    assert IsReloadAt(start, raw, fromTs, toTs, clients, traces, picks, i);
  }

  /** Every client the window reaches ends as its own reload says, surrogate keys aside,
      whatever other clients are reloaded around it. */
  lemma RunReloads(start: Db, raw: Logs, fromTs: int, toTs: int,
                   clients: seq<Client>, traces: seq<Trace>, picks: seq<int>, i: nat)
    requires IsReloadRun(start, raw, fromTs, toTs, clients, traces, picks) && i < |traces| && Distinct(clients)
    requires Ready(start, raw, fromTs, toTs)
    ensures clients[i] in Affected(raw, fromTs, toTs)
    ensures var c, from := clients[i], ResetPoint(raw, clients[i], fromTs, toTs);
      Similar(Project(StateAfter(start, traces, |traces|), c),
              Reload(Project(start, c), from, EventsFrom(raw, c, from), traces[i].parking.placeholder))
  {
    StepOfRun(start, raw, fromTs, toTs, clients, traces, picks, i);
    OwnReload(start, raw, fromTs, toTs, clients, traces, picks, i);
    var c, from := clients[i], ResetPoint(raw, clients[i], fromTs, toTs);
    var es, p := EventsFrom(raw, c, from), traces[i].parking.placeholder;
    TraceReloads(traces[i], raw, c, from, es, picks[i]);
    ReloadIgnoresKeys(Project(traces[i].start, c), Project(start, c), from, es, p);
  }

  ghost predicate LandsOn(db: Db, f: Fact, g: Fact, l: int) {
    var h, t := HistoryOf(db, f.client), Midnight(f.day);
    && l in Covering(h, t) && (Disjoint(h) ==> Covering(h, t) == {l})
    && g == f.(snapshotKey := h[l].key)
  }

  /** After the run each fact is as it was, or on a version covering its day, the only one unless
      its client's windows overlap. */
  lemma RunLandsFacts(start: Db, raw: Logs, fromTs: int, toTs: int,
                      clients: seq<Client>, traces: seq<Trace>, picks: seq<int>, id: FactId)
    requires IsReloadRun(start, raw, fromTs, toTs, clients, traces, picks) && Distinct(clients)
    requires Ready(start, raw, fromTs, toTs) && id in start.facts
    ensures var end, f := StateAfter(start, traces, |traces|), start.facts[id];
      id in end.facts
      && (end.facts[id] == f
          || exists l :: LandsOn(end, f, end.facts[id], l))
  {
    var f := start.facts[id];
    if f.client !in clients {
      UntouchedBetween(start, raw, fromTs, toTs, clients, traces, picks, f.client, 0, |traces|);
    } else {
      var i :| 0 <= i < |clients| && clients[i] == f.client;
      var end := StateAfter(start, traces, |traces|);
      StepOfRun(start, raw, fromTs, toTs, clients, traces, picks, i);
      OwnReload(start, raw, fromTs, toTs, clients, traces, picks, i);
      var from := ResetPoint(raw, f.client, fromTs, toTs);
      var es := EventsFrom(raw, f.client, from);
      OnlyParkedFactsMove(traces[i], raw, f.client, from, es, picks[i], id);
      if id in traces[i].parking.parked {
        var l := MovedFactsAreAsOf(traces[i], raw, f.client, from, es, picks[i], id);
        assert HistoryOf(end, f.client) == HistoryOf(traces[i].finish, f.client);
        assert LandsOn(end, f, end.facts[id], l);
      } else {
        UnparkedStay(traces[i], f.client, from, es, picks[i]);
      }
    }
  }

  lemma StreamedIsReady(db: Db, raw: Logs, arrivals: seq<Event>, fromTs: int, toTs: int)
    requires Ready(db, raw, fromTs, toTs) && AllInLogs(raw, arrivals)
    ensures Ready(Handle(db, arrivals), raw, fromTs, toTs)
  {
    HandleKeepsIntegrity(db, arrivals);
    forall c | c in Affected(raw, fromTs, toTs)
      ensures LayeredIn(Handle(db, arrivals), raw, c)
    {
      HandleKeepsLayered(db, raw, arrivals, c);
    }
  }

  lemma CallIgnoresKeys(a: ClientState, b: ClientState, log: Log, from: int, es: seq<Event>, p: Option<Attributes>)
    requires LayeredCall(a, log, from, es, p) && Similar(a, b) && Layered(b, log)
    ensures LayeredCall(b, log, from, es, p)
  {
    assert Below(b.history, from).Keys == Below(a.history, from).Keys;
  }

  lemma CallOfStep(start: Db, raw: Logs, fromTs: int, toTs: int,
                   clients: seq<Client>, traces: seq<Trace>, picks: seq<int>, i: nat)
    requires IsReloadRun(start, raw, fromTs, toTs, clients, traces, picks) && i < |traces|
    requires Ready(start, raw, fromTs, toTs)
    ensures clients[i] in Affected(raw, fromTs, toTs)
    ensures var c, from, p := clients[i], ResetPoint(raw, clients[i], fromTs, toTs), traces[i].parking.placeholder;
      LayeredCall(Project(traces[i].start, c), LogOf(raw, c), from, EventsFrom(raw, c, from), p)
  {
    StepOfRun(start, raw, fromTs, toTs, clients, traces, picks, i);
    var c, from := clients[i], ResetPoint(raw, clients[i], fromTs, toTs);
    ReloadableCalls(traces[i], raw, c, from, EventsFrom(raw, c, from), picks[i]);
  }

  /** The reload call of one client as the client-level theorems take it. */
  lemma RunCall(start: Db, raw: Logs, fromTs: int, toTs: int,
                clients: seq<Client>, traces: seq<Trace>, picks: seq<int>, i: nat, s: ClientState)
    requires IsReloadRun(start, raw, fromTs, toTs, clients, traces, picks) && i < |traces| && Distinct(clients)
    requires Ready(start, raw, fromTs, toTs)
    requires Similar(Project(start, clients[i]), s) && Layered(s, LogOf(raw, clients[i]))
    ensures clients[i] in Affected(raw, fromTs, toTs)
    ensures var c, from, p := clients[i], ResetPoint(raw, clients[i], fromTs, toTs), traces[i].parking.placeholder;
      LayeredCall(s, LogOf(raw, c), from, EventsFrom(raw, c, from), p)
  {
    var c := clients[i];
    CallOfStep(start, raw, fromTs, toTs, clients, traces, picks, i);
    OwnReload(start, raw, fromTs, toTs, clients, traces, picks, i);
    var from := ResetPoint(raw, c, fromTs, toTs);
    CallIgnoresKeys(Project(traces[i].start, c), s, LogOf(raw, c), from, EventsFrom(raw, c, from), traces[i].parking.placeholder);
  }

  /** Whatever the tables were, the run leaves an affected client with the rows and the watermark
      that replaying its log from the reset point on gives, if and only if that log does not start
      with a delete under a placeholder. */
  lemma ReloadedInOrderIff(start: Db, raw: Logs, fromTs: int, toTs: int,
                           clients: seq<Client>, traces: seq<Trace>, picks: seq<int>, i: nat)
    requires IsReloadRun(start, raw, fromTs, toTs, clients, traces, picks) && i < |traces| && Distinct(clients)
    requires Ready(start, raw, fromTs, toTs) && clients[i] in Affected(raw, fromTs, toTs)
    ensures var c, from := clients[i], ResetPoint(raw, clients[i], fromTs, toTs);
      var end, again := StateAfter(start, traces, |traces|), Run(Reset(Project(start, c), from), EventsFrom(raw, c, from));
      && (SameContent(HistoryOf(end, c), again.history) <==>
            !NeedsPlaceholder(start, c, from) || !raw[c][from].change.Delete?)
      && (SameContent(HistoryOf(end, c), again.history) ==> Similar(Project(end, c), again))
  {
    var c, from := clients[i], ResetPoint(raw, clients[i], fromTs, toTs);
    var s, es, p := Project(start, c), EventsFrom(raw, c, from), traces[i].parking.placeholder;
    RunReloads(start, raw, fromTs, toTs, clients, traces, picks, i);
    RunCall(start, raw, fromTs, toTs, clients, traces, picks, i, s);
    PlaceholderIffNeeded(start, raw, fromTs, toTs, clients, traces, picks, i);
    FirstEvent(raw, c, from);
    ReloadsInOrderIff(s, LogOf(raw, c), from, es, p);
    SameContentThrough(Run(Reset(s, from), es).history, HistoryOf(StateAfter(start, traces, |traces|), c),
                       Reload(s, from, es, p).history);
  }

  /** Convergence of the warehouse.  Whatever was streamed, loaded or reloaded before, a window that
      reaches a client's earliest logged event leaves the rows that applying its log once, in lsn
      order, to its starting rows gives, if and only if that log does not start with a delete under
      a placeholder.  The watermark agrees then as well, unless there is nothing to show for one. */
  lemma WarehouseConverges(start: Db, raw: Logs, fromTs: int, toTs: int,
                           clients: seq<Client>, traces: seq<Trace>, picks: seq<int>, i: nat)
    requires IsReloadRun(start, raw, fromTs, toTs, clients, traces, picks) && i < |traces| && Distinct(clients)
    requires Ready(start, raw, fromTs, toTs) && clients[i] in Affected(raw, fromTs, toTs)
    requires forall l | l in raw[clients[i]] :: ResetPoint(raw, clients[i], fromTs, toTs) <= l
    ensures var c, from := clients[i], ResetPoint(raw, clients[i], fromTs, toTs);
      var end, once := StateAfter(start, traces, |traces|), AppliedOnce(StartingRows(HistoryOf(start, c)), EventsFrom(raw, c, from));
      && (SameContent(HistoryOf(end, c), once.history) <==>
            !NeedsPlaceholder(start, c, from) || !raw[c][from].change.Delete?)
      && (Similar(Project(end, c), once) <==>
            SameContent(HistoryOf(end, c), once.history) && (once.history != map[] || WatermarkOf(start, c) == None))
  {
    var c, from := clients[i], ResetPoint(raw, clients[i], fromTs, toTs);
    var s, es, p := Project(start, c), EventsFrom(raw, c, from), traces[i].parking.placeholder;
    RunReloads(start, raw, fromTs, toTs, clients, traces, picks, i);
    RunCall(start, raw, fromTs, toTs, clients, traces, picks, i, s);
    PlaceholderIffNeeded(start, raw, fromTs, toTs, clients, traces, picks, i);
    FirstEvent(raw, c, from);
    ReloadAppliesOnceIff(s, LogOf(raw, c), from, es, p);
    SameContentThrough(AppliedOnce(StartingRows(s.history), es).history, HistoryOf(StateAfter(start, traces, |traces|), c),
                       Reload(s, from, es, p).history);
  }

  /** Streaming makes no fact, so a client none of whose events has been applied needs no
      placeholder after it. */
  lemma StreamingNeedsNoPlaceholder(db: Db, arrivals: seq<Event>, c: Client, from: int)
    requires KeysUnique(db) && FactsAnchored(db) && RowsBelow(HistoryOf(db, c), from)
    ensures !NeedsPlaceholder(Handle(db, arrivals), c, from)
  {
    var after := Handle(db, arrivals);
    HandleKeepsIntegrity(db, arrivals);
    if NeedsPlaceholder(after, c, from) {
      var id := Pick(Referring(after, DoomedKeys(HistoryOf(after, c), from)));
      var f := after.facts[id];
      var m :| m in HistoryOf(after, c) && from <= m && HistoryOf(after, c)[m].key == f.snapshotKey;
      assert IsRow(after, c, m, f.snapshotKey);
      assert Anchored(db, f);
      var l :| AnchoredAt(db, f, l);
      HandlePersists(db, arrivals);
      assert Persists(db, after, f.client, l);
      assert IsRow(after, f.client, l, f.snapshotKey);
    }
  }

  /** Streamed in any order, then reloaded: with none of its events applied before, the client ends
      with the rows of one application of its log, unconditionally. */
  lemma StreamedWarehouseConverges(db: Db, raw: Logs, arrivals: seq<Event>, fromTs: int, toTs: int,
                                   clients: seq<Client>, traces: seq<Trace>, picks: seq<int>, i: nat)
    requires Ready(db, raw, fromTs, toTs) && AllInLogs(raw, arrivals)
    requires IsReloadRun(Handle(db, arrivals), raw, fromTs, toTs, clients, traces, picks)
    requires i < |traces| && Distinct(clients) && clients[i] in Affected(raw, fromTs, toTs)
    requires forall l | l in raw[clients[i]] :: ResetPoint(raw, clients[i], fromTs, toTs) <= l
    requires RowsBelow(HistoryOf(db, clients[i]), ResetPoint(raw, clients[i], fromTs, toTs))
    ensures var c, from := clients[i], ResetPoint(raw, clients[i], fromTs, toTs);
      SameContent(HistoryOf(StateAfter(Handle(db, arrivals), traces, |traces|), c),
                  AppliedOnce(StartingRows(HistoryOf(db, c)), EventsFrom(raw, c, from)).history)
  {
    var c, from := clients[i], ResetPoint(raw, clients[i], fromTs, toTs);
    var start, es := Handle(db, arrivals), EventsFrom(raw, c, from);
    StreamedIsReady(db, raw, arrivals, fromTs, toTs);
    StreamingNeedsNoPlaceholder(db, arrivals, c, from);
    WarehouseConverges(start, raw, fromTs, toTs, clients, traces, picks, i);
    StreamingKeepsStart(db, raw, arrivals, c);
    AppliedOnceIgnoresKeys(StartingRows(HistoryOf(start, c)), StartingRows(HistoryOf(db, c)), es);
    SameContentThrough(HistoryOf(StateAfter(start, traces, |traces|), c),
                       AppliedOnce(StartingRows(HistoryOf(start, c)), es).history,
                       AppliedOnce(StartingRows(HistoryOf(db, c)), es).history);
  }

  /** Streaming leaves the rows a client started from. */
  lemma StreamingKeepsStart(db: Db, raw: Logs, arrivals: seq<Event>, c: Client)
    requires LogsOk(raw) && AllInLogs(raw, arrivals) && LayeredIn(db, raw, c)
    ensures SameContent(StartingRows(HistoryOf(Handle(db, arrivals), c)), StartingRows(HistoryOf(db, c)))
  {
    var s, own := Project(db, c), OfClient(arrivals, c);
    ClientSeesItsOwn(db, arrivals, c);
    OfClientLogged(raw, arrivals, c);
    LayeredHasOneOpenStart(s, LogOf(raw, c));
    forall k | 0 <= k < |own|
      ensures 0 < own[k].lsn
    {
      assert Logged(LogOf(raw, c), own[k]);
    }
    RunKeepsStart(s, own);
    SameContentSameStart(HistoryOf(Handle(db, arrivals), c), Run(s, own).history);
  }

  lemma FirstEvent(raw: Logs, c: Client, from: int)
    requires LogOk(LogOf(raw, c)) && from in LogOf(raw, c)
    ensures EventsFrom(raw, c, from) != []
    ensures EventsFrom(raw, c, from)[0] == Event(c, from, LogOf(raw, c)[from].commitTs, LogOf(raw, c)[from].change)
  {
    EventsFromLog(raw, c, from);
    var order := Sorted(LogFrom(LogOf(raw, c), from).Keys);
    assert order[0] in order;
  }

  /** After the run the rows of a reloaded client match its log one to one from the reset point
      on, if and only if its log does not start with a delete under a placeholder. */
  lemma RunMatchesLogIff(start: Db, raw: Logs, fromTs: int, toTs: int,
                         clients: seq<Client>, traces: seq<Trace>, picks: seq<int>, i: nat)
    requires IsReloadRun(start, raw, fromTs, toTs, clients, traces, picks) && i < |traces| && Distinct(clients)
    requires Ready(start, raw, fromTs, toTs) && clients[i] in Affected(raw, fromTs, toTs)
    ensures var c, from := clients[i], ResetPoint(raw, clients[i], fromTs, toTs);
      var es := EventsFrom(raw, c, from);
      ReplayedRows(Reset(Project(start, c), from).history,
                   HistoryOf(StateAfter(start, traces, |traces|), c), es, |es|)
      <==> !NeedsPlaceholder(start, c, from) || !raw[c][from].change.Delete?
  {
    var c, from := clients[i], ResetPoint(raw, clients[i], fromTs, toTs);
    CallOfStep(start, raw, fromTs, toTs, clients, traces, picks, i);
    PlaceholderIffNeeded(start, raw, fromTs, toTs, clients, traces, picks, i);
    OwnTraceReloads(start, raw, fromTs, toTs, clients, traces, picks, i);
    FirstEvent(raw, c, from);
    ReloadMatchesLogIff(Project(traces[i].start, c), LogOf(raw, c), from, EventsFrom(raw, c, from), traces[i].parking.placeholder);
  }

  /** The rows of client i of a run, before and after. */
  lemma OwnTraceReloads(start: Db, raw: Logs, fromTs: int, toTs: int,
                        clients: seq<Client>, traces: seq<Trace>, picks: seq<int>, i: nat)
    requires IsReloadRun(start, raw, fromTs, toTs, clients, traces, picks) && i < |traces| && Distinct(clients)
    requires Ready(start, raw, fromTs, toTs)
    ensures clients[i] in Affected(raw, fromTs, toTs)
    ensures var c, from := clients[i], ResetPoint(raw, clients[i], fromTs, toTs);
      && HistoryOf(traces[i].start, c) == HistoryOf(start, c)
      && Project(traces[i].finish, c) ==
           Reload(Project(traces[i].start, c), from, EventsFrom(raw, c, from), traces[i].parking.placeholder)
      && HistoryOf(StateAfter(start, traces, |traces|), c) == HistoryOf(traces[i].finish, c)
  {
    StepOfRun(start, raw, fromTs, toTs, clients, traces, picks, i);
    OwnReload(start, raw, fromTs, toTs, clients, traces, picks, i);
    var c, from := clients[i], ResetPoint(raw, clients[i], fromTs, toTs);
    TraceReloads(traces[i], raw, c, from, EventsFrom(raw, c, from), picks[i]);
  }

  lemma ReloadMakesNoFacts(tr: Trace, raw: Logs, c: Client, from: int, es: seq<Event>, pick: int, id: FactId)
    requires Reloadable(tr.start, raw, c, from, es) && IsReload(tr, c, from, es, pick)
    requires id in tr.finish.facts
    ensures id in tr.start.facts && tr.start.facts[id].client == tr.finish.facts[id].client
  {
    UnparkedStay(tr, c, from, es, pick);
    OnlyParkedFactsMove(tr, raw, c, from, es, pick, id);
  }

  lemma StepMakesNoFacts(start: Db, raw: Logs, fromTs: int, toTs: int,
                         clients: seq<Client>, traces: seq<Trace>, picks: seq<int>, i: nat, id: FactId)
    requires IsReloadRun(start, raw, fromTs, toTs, clients, traces, picks) && i < |traces|
    requires Ready(start, raw, fromTs, toTs) && id in traces[i].finish.facts
    ensures id in StateAfter(start, traces, i).facts
    ensures StateAfter(start, traces, i).facts[id].client == traces[i].finish.facts[id].client
  {
    StepOfRun(start, raw, fromTs, toTs, clients, traces, picks, i);
    var c, from := clients[i], ResetPoint(raw, clients[i], fromTs, toTs);
    ReloadMakesNoFacts(traces[i], raw, c, from, EventsFrom(raw, c, from), picks[i], id);
  }

  /** A run makes no facts. */
  lemma {:induction false} RunMakesNoFacts(start: Db, raw: Logs, fromTs: int, toTs: int,
                                           clients: seq<Client>, traces: seq<Trace>, picks: seq<int>, n: nat, id: FactId)
    requires IsReloadRun(start, raw, fromTs, toTs, clients, traces, picks) && n <= |traces|
    requires Ready(start, raw, fromTs, toTs) && id in StateAfter(start, traces, n).facts
    ensures id in start.facts && start.facts[id].client == StateAfter(start, traces, n).facts[id].client
  {
    if n > 0 {
      StepMakesNoFacts(start, raw, fromTs, toTs, clients, traces, picks, n - 1, id);
      RunMakesNoFacts(start, raw, fromTs, toTs, clients, traces, picks, n - 1, id);
    }
  }

  /** The first event that is not a delete, seen in the list and in the log. */
  lemma LeadingDeletesByLsn(raw: Logs, c: Client, from: int, i: nat)
    requires LogOk(LogOf(raw, c)) && from in LogOf(raw, c) && i < |EventsFrom(raw, c, from)|
    ensures LeadingDeletes(map[], EventsFrom(raw, c, from)) <= i <==>
      exists m :: m in LogOf(raw, c) && from <= m <= EventsFrom(raw, c, from)[i].lsn && !LogOf(raw, c)[m].change.Delete?
  {
    var es, log := EventsFrom(raw, c, from), LogOf(raw, c);
    EventsFromLog(raw, c, from);
    LeadingDeletesSpan(map[], es);
    forall k | 0 <= k < |es|
      ensures es[k].lsn in log && from <= es[k].lsn && es[k].change == log[es[k].lsn].change
    {
      EventOfLog(raw, c, from, k);
    }
    NonDeleteByLsn(es, log, from, i);
  }

  lemma NonDeleteByLsn(es: seq<Event>, log: Log, from: int, i: nat)
    requires AscendingEvents(es) && i < |es|
    requires forall k | 0 <= k < |es| :: es[k].lsn in log && from <= es[k].lsn && es[k].change == log[es[k].lsn].change
    requires forall m | m in log && from <= m :: exists k :: 0 <= k < |es| && es[k].lsn == m
    ensures LeadingDeletes(map[], es) <= i <==> exists m :: m in log && from <= m <= es[i].lsn && !log[m].change.Delete?
  {
    var d := LeadingDeletes(map[], es);
    LeadingDeletesSpan(map[], es);
    assert forall k | i < k < |es| :: es[i].lsn < es[k].lsn;
    if d <= i {
      assert d < i ==> es[d].lsn < es[i].lsn;
      assert !log[es[d].lsn].change.Delete?;
    } else {
      forall m | m in log && from <= m <= es[i].lsn
        ensures log[m].change.Delete?
      {
        var k :| 0 <= k < |es| && es[k].lsn == m;
      }
    }
  }

  lemma NeedCarriesOver(db: Db, after: Db, raw: Logs, c: Client, from: int, es: seq<Event>)
    requires Reloadable(db, raw, c, from, es) && NeedsPlaceholder(db, c, from) && SameFor(db, after, c)
    ensures NeedsPlaceholder(after, c, from)
  {
    var id := Pick(Referring(db, DoomedKeys(HistoryOf(db, c), from)));
    var l := ParkedFact(db, raw, c, from, es, id);
    assert id in Referring(after, DoomedKeys(HistoryOf(after, c), from));
  }

  /** Whether a client needs a placeholder depends on its own rows and facts only. */
  lemma NeedIsLocal(db: Db, after: Db, raw: Logs, c: Client, from: int, es: seq<Event>)
    requires Reloadable(db, raw, c, from, es) && Reloadable(after, raw, c, from, es) && SameFor(db, after, c)
    ensures NeedsPlaceholder(after, c, from) <==> NeedsPlaceholder(db, c, from)
  {
    if NeedsPlaceholder(db, c, from) {
      NeedCarriesOver(db, after, raw, c, from, es);
    } else if NeedsPlaceholder(after, c, from) {
      NeedCarriesOver(after, db, raw, c, from, es);
    }
  }

  /** A placeholder is made in a run exactly where the tables before the run call for one. */
  lemma PlaceholderIffNeeded(start: Db, raw: Logs, fromTs: int, toTs: int,
                             clients: seq<Client>, traces: seq<Trace>, picks: seq<int>, i: nat)
    requires IsReloadRun(start, raw, fromTs, toTs, clients, traces, picks) && i < |traces| && Distinct(clients)
    requires Ready(start, raw, fromTs, toTs)
    ensures clients[i] in Affected(raw, fromTs, toTs)
    ensures traces[i].parking.placeholder.Some? <==>
      NeedsPlaceholder(start, clients[i], ResetPoint(raw, clients[i], fromTs, toTs))
  {
    StepOfRun(start, raw, fromTs, toTs, clients, traces, picks, i);
    OwnReload(start, raw, fromTs, toTs, clients, traces, picks, i);
    var c, from := clients[i], ResetPoint(raw, clients[i], fromTs, toTs);
    var es := EventsFrom(raw, c, from);
    PlaceholderOfTrace(traces[i], c, from, es, picks[i]);
    SoundIsReloadable(start, raw, c, from);
    NeedIsLocal(start, traces[i].start, raw, c, from, es);
  }

  lemma PlaceholderOfTrace(tr: Trace, c: Client, from: int, es: seq<Event>, pick: int)
    requires IsReload(tr, c, from, es, pick)
    ensures tr.parking.placeholder.Some? <==> NeedsPlaceholder(tr.start, c, from)
  {
  }

  lemma RunLandsIff(start: Db, raw: Logs, fromTs: int, toTs: int,
                    clients: seq<Client>, traces: seq<Trace>, picks: seq<int>, i: nat, k: nat)
    requires IsReloadRun(start, raw, fromTs, toTs, clients, traces, picks) && i < |traces| && Distinct(clients)
    requires Ready(start, raw, fromTs, toTs) && clients[i] in Affected(raw, fromTs, toTs)
    requires k < |EventsFrom(raw, clients[i], ResetPoint(raw, clients[i], fromTs, toTs))|
    ensures var c, from := clients[i], ResetPoint(raw, clients[i], fromTs, toTs);
      var es := EventsFrom(raw, c, from);
      HasVersion(HistoryOf(StateAfter(start, traces, |traces|), c), es[k]) <==>
        Below(HistoryOf(start, c), from) != map[] || traces[i].parking.placeholder.Some?
        || LeadingDeletes(map[], es) <= k
  {
    var c, from := clients[i], ResetPoint(raw, clients[i], fromTs, toTs);
    var es := EventsFrom(raw, c, from);
    StepOfRun(start, raw, fromTs, toTs, clients, traces, picks, i);
    CallOfStep(start, raw, fromTs, toTs, clients, traces, picks, i);
    OwnReload(start, raw, fromTs, toTs, clients, traces, picks, i);
    TraceReloads(traces[i], raw, c, from, es, picks[i]);
    ReloadLandsIff(Project(traces[i].start, c), LogOf(raw, c), from, es, traces[i].parking.placeholder, k);
  }

  /** What a reload is for: afterwards an event from the reset point on has its version, with the
      log's present values, whether streaming had dropped it, quarantined it or applied older
      ones - if and only if a version survives below the reset point, a fact made a placeholder
      necessary, or an insert or update stands at or before it. */
  lemma WindowIsRepairedIff(start: Db, end: Db, raw: Logs, fromTs: int, toTs: int,
                            clients: seq<Client>, traces: seq<Trace>, picks: seq<int>, c: Client, l: int)
    requires IsWholeRun(start, end, raw, fromTs, toTs, clients, traces, picks)
    requires Ready(start, raw, fromTs, toTs) && c in Affected(raw, fromTs, toTs)
    requires l in raw[c] && ResetPoint(raw, c, fromTs, toTs) <= l
    ensures var from := ResetPoint(raw, c, fromTs, toTs);
      HasVersion(HistoryOf(end, c), Event(c, l, raw[c][l].commitTs, raw[c][l].change)) <==>
        Below(HistoryOf(start, c), from) != map[] || NeedsPlaceholder(start, c, from)
        || exists m :: m in LogOf(raw, c) && from <= m <= l && !LogOf(raw, c)[m].change.Delete?
  {
    var i :| 0 <= i < |clients| && clients[i] == c;
    var from := ResetPoint(raw, c, fromTs, toTs);
    var es := EventsFrom(raw, c, from);
    EventsFromLog(raw, c, from);
    var k :| 0 <= k < |es| && es[k].lsn == l;
    EventOfLog(raw, c, from, k);
    LeadingDeletesByLsn(raw, c, from, k);
    PlaceholderIffNeeded(start, raw, fromTs, toTs, clients, traces, picks, i);
    RunLandsIff(start, raw, fromTs, toTs, clients, traces, picks, i, k);
  }

  /** A fact is on a row the reload of its client will delete. */
  ghost predicate OnDoomedRow(db: Db, raw: Logs, fromTs: int, toTs: int, f: Fact) {
    && f.client in Affected(raw, fromTs, toTs)
    && f.snapshotKey in DoomedKeys(HistoryOf(db, f.client), ResetPoint(raw, f.client, fromTs, toTs))
  }

  /** A run changes a fact's key if and only if the fact was on a doomed row when it started. */
  lemma RunMovesFactIff(start: Db, end: Db, raw: Logs, fromTs: int, toTs: int,
                        clients: seq<Client>, traces: seq<Trace>, picks: seq<int>, id: FactId)
    requires IsWholeRun(start, end, raw, fromTs, toTs, clients, traces, picks)
    requires Ready(start, raw, fromTs, toTs) && id in start.facts
    ensures id in end.facts
    ensures end.facts[id].snapshotKey != start.facts[id].snapshotKey <==>
      OnDoomedRow(start, raw, fromTs, toTs, start.facts[id])
  {
    var c := start.facts[id].client;
    if c !in clients {
      UntouchedBetween(start, raw, fromTs, toTs, clients, traces, picks, c, 0, |traces|);
    } else {
      var i :| 0 <= i < |clients| && clients[i] == c;
      StepOfRun(start, raw, fromTs, toTs, clients, traces, picks, i);
      OwnReload(start, raw, fromTs, toTs, clients, traces, picks, i);
      var from := ResetPoint(raw, c, fromTs, toTs);
      FactMovesIff(traces[i], raw, c, from, EventsFrom(raw, c, from), picks[i], id);
    }
  }

  /** The fact lines of two state dumps around a reload agree if and only if no fact was on a doomed
      row: otherwise the reload leaves other keys, however often it is repeated. */
  lemma FactDumpsAgreeIff(start: Db, end: Db, raw: Logs, fromTs: int, toTs: int,
                          clients: seq<Client>, traces: seq<Trace>, picks: seq<int>)
    requires IsWholeRun(start, end, raw, fromTs, toTs, clients, traces, picks)
    requires Ready(start, raw, fromTs, toTs)
    ensures end.facts.Keys == start.facts.Keys
    ensures (forall id | id in start.facts :: end.facts[id].snapshotKey == start.facts[id].snapshotKey) <==>
      forall id | id in start.facts :: !OnDoomedRow(start, raw, fromTs, toTs, start.facts[id])
  {
    forall id | id in start.facts
      ensures id in end.facts
      ensures end.facts[id].snapshotKey != start.facts[id].snapshotKey <==>
        OnDoomedRow(start, raw, fromTs, toTs, start.facts[id])
    {
      RunMovesFactIff(start, end, raw, fromTs, toTs, clients, traces, picks, id);
    }
    forall id | id in end.facts
      ensures id in start.facts
    {
      RunMakesNoFacts(start, raw, fromTs, toTs, clients, traces, picks, |traces|, id);
    }
  }
}

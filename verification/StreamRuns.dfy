/** Whole streaming runs over the warehouse: the run invariant, conservation, and the rerun
(scd2_apply in layer3_warehouse.py). */
module StreamRuns {
  import opened Model
  import opened FiniteSets
  import opened Histories
  import opened ClientCdc
  import opened Lists
  import opened Streaming
  import opened ClientReload
  import opened Database
  import opened Stopgaps

  /** The raw change log, by client. */
  type Logs = map<Client, Log>

  function LogOf(logs: Logs, c: Client): Log {
    if c in logs then logs[c] else map[]
  }

  ghost predicate LogsOk(logs: Logs) {
    forall c | c in logs :: LogOk(logs[c])
  }

  ghost predicate AllInLogs(logs: Logs, es: seq<Event>) {
    forall i | 0 <= i < |es| :: Logged(LogOf(logs, es[i].client), es[i])
  }

  /** Client c has no stopgap rows and its rows follow its log. */
  ghost predicate Clean(db: Db, logs: Logs, c: Client) {
    Settled(Project(db, c), LogOf(logs, c))
  }

  lemma EventKeepsClean(db: Db, logs: Logs, e: Event, c: Client)
    requires LogsOk(logs) && Logged(LogOf(logs, e.client), e) && Clean(db, logs, c)
    ensures Clean(HandleEvent(db, e), logs, c)
    ensures db.nextKey <= HandleEvent(db, e).nextKey
  {
    HandleIsStep(db, e);
    if c == e.client {
      StepKeepsSettled(Project(db, c), LogOf(logs, c), e);
    } else {
      HandleKeepsOthers(db, e, c);
    }
  }

  /** Streaming any events keeps every clean client's windows one chain. */
  lemma {:induction false} HandleKeepsClean(db: Db, logs: Logs, es: seq<Event>, c: Client)
    requires LogsOk(logs) && AllInLogs(logs, es) && Clean(db, logs, c)
    ensures Clean(Handle(db, es), logs, c)
  {
    if es != [] {
      HandleKeepsClean(db, logs, DropLast(es), c);
      EventKeepsClean(Handle(db, DropLast(es)), logs, Last(es), c);
    }
  }

  /** Client c's real rows follow its log, whatever stopgaps lie underneath. */
  ghost predicate LayeredIn(db: Db, logs: Logs, c: Client) {
    Layered(Project(db, c), LogOf(logs, c))
  }

  lemma CleanIsLayered(db: Db, logs: Logs, c: Client)
    ensures Clean(db, logs, c) <==> LayeredIn(db, logs, c) && NoStopgap(HistoryOf(db, c))
  {
    SettledIsLayered(Project(db, c), LogOf(logs, c));
  }

  lemma EventKeepsLayered(db: Db, logs: Logs, e: Event, c: Client)
    requires LogsOk(logs) && Logged(LogOf(logs, e.client), e) && LayeredIn(db, logs, c)
    ensures LayeredIn(HandleEvent(db, e), logs, c) && db.nextKey <= HandleEvent(db, e).nextKey
    ensures SameStopgaps(HistoryOf(db, c), HistoryOf(HandleEvent(db, e), c))
  {
    HandleIsStep(db, e);
    if c == e.client {
      StepKeepsLayered(Project(db, c), LogOf(logs, c), e);
    } else {
      HandleKeepsOthers(db, e, c);
    }
  }

  /** Streaming any events keeps every client's real rows one chain and its stopgaps as they are,
      seeded or not. */
  lemma {:induction false} HandleKeepsLayered(db: Db, logs: Logs, es: seq<Event>, c: Client)
    requires LogsOk(logs) && AllInLogs(logs, es) && LayeredIn(db, logs, c)
    ensures LayeredIn(Handle(db, es), logs, c) && db.nextKey <= Handle(db, es).nextKey
    ensures SameStopgaps(HistoryOf(db, c), HistoryOf(Handle(db, es), c))
  {
    if es != [] {
      var mid := Handle(db, DropLast(es));
      HandleKeepsLayered(db, logs, DropLast(es), c);
      EventKeepsLayered(mid, logs, Last(es), c);
    }
  }

  /** All rows of the version table, by their unique key. */
  function Rows(db: Db): set<(Client, int)> {
    set c, l | c in db.snapshots && l in db.snapshots[c] :: (c, l)
  }

  /** Each event adds exactly one version row or exactly one quarantine row. */
  lemma EventAddsOneRow(db: Db, logs: Logs, e: Event)
    requires LayeredIn(db, logs, e.client)
    ensures var after := HandleEvent(db, e);
      if Judge(Project(db, e.client), e) == Applied
      then (e.client, e.lsn) !in Rows(db) && Rows(after) == Rows(db) + {(e.client, e.lsn)}
           && after.quarantine == db.quarantine
      else Rows(after) == Rows(db) && |after.quarantine| == |db.quarantine| + 1
  {
    HandleIsStep(db, e);
    var h, g := HistoryOf(db, e.client), HistoryOf(HandleEvent(db, e), e.client);
    if Judge(Project(db, e.client), e) == Applied {
      AppliedKeys(Project(db, e.client), LogOf(logs, e.client), e);
      assert g.Keys == h.Keys + {e.lsn} && e.lsn !in h;
    } else {
      assert g == h;
    }
    OthersKeepRows(db, e);
    RowsOfOne(db, HandleEvent(db, e), e.client);
  }

  /** The values of a tombstone: the highest row's, but for the status. */
  ghost predicate CopiesTop(h: History, a: Attributes) {
    exists top ::
      top in h && (forall l | l in h :: l <= top) && a == Attributes(h[top].attrs.category, h[top].attrs.balance, "deleted")
  }

  /** What becomes of one event, table by table: a bare delete and a stale event are quarantined, any
      other closes the current row at its commit time, adds its own - a delete with the highest
      row's values - and moves the watermark.  Nothing else changes. */
  lemma EventOnTables(db: Db, logs: Logs, e: Event)
    requires LayeredIn(db, logs, e.client)
    ensures var c, after := e.client, HandleEvent(db, e); var h, g := HistoryOf(db, c), HistoryOf(after, c);
      var floor := if c in db.watermark then db.watermark[c] else 0;
      && after.facts == db.facts
      && (forall d | d != c :: HistoryOf(after, d) == HistoryOf(db, d))
      && if e.change.Delete? && h == map[] then
           after == db.(quarantine := db.quarantine + [Rejection(DeleteWithNoBaseline, c, e.lsn, e.change)])
         else if e.lsn <= floor then
           after == db.(watermark := db.watermark[c := floor], quarantine := db.quarantine + [Rejection(StaleLsn, c, e.lsn, e.change)])
         else
           && after.watermark == db.watermark[c := e.lsn] && after.quarantine == db.quarantine
           && after.nextKey == db.nextKey + 1 && e.lsn !in h && g.Keys == h.Keys + {e.lsn}
           && (forall l | l in h ::
                 g[l] == if h[l].isCurrent then h[l].(validTo := e.commitTs, isCurrent := false) else h[l])
           && g[e.lsn] == Version(db.nextKey, g[e.lsn].attrs, e.commitTs, 253_402_214_400_000_000, true, e.change.Delete?)
           && match e.change
              case Insert(after) => g[e.lsn].attrs == after
              case Update(after) => g[e.lsn].attrs == after
              case Delete => CopiesTop(h, g[e.lsn].attrs)
  {
    var s, h := Project(db, e.client), HistoryOf(db, e.client);
    HandleIsStep(db, e);
    if Judge(s, e) == Applied {
      AppliedKeys(s, LogOf(logs, e.client), e);
      AppliedRow(s, e);
    }
  }

  lemma AppliedRow(s: ClientState, e: Event)
    requires Judge(s, e) == Applied && e.lsn !in s.history
    ensures var g := Step(s, e).history;
      && e.lsn in g && g[e.lsn] == Version(s.nextKey, g[e.lsn].attrs, e.commitTs, 253_402_214_400_000_000, true, e.change.Delete?)
      && match e.change
         case Insert(after) => g[e.lsn].attrs == after
         case Update(after) => g[e.lsn].attrs == after
         case Delete => CopiesTop(s.history, g[e.lsn].attrs)
  {
    var closed := EndDate(s.history, e.commitTs);
    assert closed.Keys == s.history.Keys;
    if e.change.Delete? {
      var top := Max(closed.Keys);
      assert top in s.history && closed[top].attrs == s.history[top].attrs;
    }
  }

  lemma OthersKeepRows(db: Db, e: Event)
    ensures forall d | d != e.client :: HistoryOf(HandleEvent(db, e), d) == HistoryOf(db, d)
  {
    forall d | d != e.client
      ensures HistoryOf(HandleEvent(db, e), d) == HistoryOf(db, d)
    {
      HandleKeepsOthers(db, e, d);
    }
  }

  lemma RowsOfOne(db: Db, after: Db, c: Client)
    requires forall d | d != c :: HistoryOf(after, d) == HistoryOf(db, d)
    ensures Rows(after) == (set r | r in Rows(db) && r.0 != c) + (set l | l in HistoryOf(after, c) :: (c, l))
    ensures Rows(db) == (set r | r in Rows(db) && r.0 != c) + (set l | l in HistoryOf(db, c) :: (c, l))
  {
    forall r | r in Rows(after)
      ensures r in Rows(db) || r.0 == c
    {
      assert r.0 != c ==> HistoryOf(after, r.0) == HistoryOf(db, r.0);
    }
    forall r | r in Rows(db) && r.0 != c
      ensures r in Rows(after)
    {
      assert HistoryOf(after, r.0) == HistoryOf(db, r.0);
    }
  }

  ghost predicate AllLayered(db: Db, logs: Logs, es: seq<Event>) {
    forall i | 0 <= i < |es| :: LayeredIn(db, logs, es[i].client)
  }

  /** The selected rows are logged and their clients' real rows follow the log. */
  ghost predicate Streamable(db: Db, logs: Logs, staged: seq<Event>) {
    var es := Selected(db, staged);
    LogsOk(logs) && AllInLogs(logs, es) && AllLayered(db, logs, es)
  }

  /** Conservation over a run: versions and quarantine rows together grow by one per event,
      and no row of either is lost. */
  lemma {:induction false} RunConserves(db: Db, logs: Logs, es: seq<Event>)
    requires LogsOk(logs) && AllInLogs(logs, es) && AllLayered(db, logs, es)
    ensures var after := Handle(db, es);
      && |Rows(after)| + |after.quarantine| == |Rows(db)| + |db.quarantine| + |es|
      && Rows(db) <= Rows(after)
      && db.quarantine <= after.quarantine
      && after.facts == db.facts
  {
    if es != [] {
      var init := DropLast(es);
      RunConserves(db, logs, init);
      HandleKeepsLayered(db, logs, init, Last(es).client);
      EventAddsOneRow(Handle(db, init), logs, Last(es));
      HandleIsStep(Handle(db, init), Last(es));
    }
  }

  /** The client's watermark row is at or above the event. */
  ghost predicate Passed(db: Db, e: Event) {
    e.client in db.watermark && e.lsn <= db.watermark[e.client]
  }

  lemma {:induction false} SelectedMembers(db: Db, staged: seq<Event>, e: Event)
    ensures e in Selected(db, staged) <==> e in staged && !Passed(db, e)
  {
    if staged != [] {
      Snoc(staged);
      SelectedMembers(db, DropLast(staged), e);
    }
  }

  lemma {:induction false} SelectedPlaces(db: Db, staged: seq<Event>) returns (at: seq<int>)
    ensures PlacesOf(db, staged, at)
  {
    if staged == [] {
      at := [];
    } else {
      var before := SelectedPlaces(db, DropLast(staged));
      Snoc(staged);
      at := if Passed(db, Last(staged)) then before else before + [|staged| - 1];
      PlacesGrow(db, DropLast(staged), Last(staged), before);
    }
  }

  /** The selection keeps staging order and multiplicity: it is the rows at some ascending places,
      exactly those whose client has no watermark row or one below their lsn. */
  lemma SelectedKeepsOrder(db: Db, staged: seq<Event>) returns (at: seq<int>)
    ensures |at| == |Selected(db, staged)| && forall k, m | 0 <= k < m < |at| :: at[k] < at[m]
    ensures forall k | 0 <= k < |at| :: 0 <= at[k] < |staged| && Selected(db, staged)[k] == staged[at[k]]
    ensures forall i | 0 <= i < |staged| ::
      i in at <==> (staged[i].client in db.watermark ==> db.watermark[staged[i].client] < staged[i].lsn)
  {
    at := SelectedPlaces(db, staged);
  }

  /** The selection is the staged rows at these ascending places, exactly those not passed. */
  ghost predicate PlacesOf(db: Db, staged: seq<Event>, at: seq<int>) {
    && |at| == |Selected(db, staged)| && Ascending(at)
    && (forall k | 0 <= k < |at| :: 0 <= at[k] < |staged| && Selected(db, staged)[k] == staged[at[k]])
    && forall i | 0 <= i < |staged| :: i in at <==> !Passed(db, staged[i])
  }

  lemma PlacesGrow(db: Db, staged: seq<Event>, e: Event, before: seq<int>)
    requires PlacesOf(db, staged, before)
    ensures PlacesOf(db, staged + [e], if Passed(db, e) then before else before + [|staged|])
  {
    var more := staged + [e];
    assert DropLast(more) == staged && Last(more) == e;
    if Passed(db, e) {
      PlaceSkipped(db, staged, e, before);
    } else {
      PlaceAdded(db, staged, e, before);
    }
  }

  lemma PlaceAdded(db: Db, staged: seq<Event>, e: Event, before: seq<int>)
    requires PlacesOf(db, staged, before) && !Passed(db, e)
    requires Selected(db, staged + [e]) == Selected(db, staged) + [e]
    ensures PlacesOf(db, staged + [e], before + [|staged|])
  {
    var more, at, n := staged + [e], before + [|staged|], |staged|;
    forall k | 0 <= k < |at|
      ensures 0 <= at[k] < |more| && Selected(db, more)[k] == more[at[k]]
    {
      assert k < |before| ==> at[k] == before[k];
    }
    forall i | 0 <= i < |more|
      ensures i in at <==> !Passed(db, more[i])
    {
      PlaceOrLast(before, n, i);
      assert i < n ==> more[i] == staged[i];
    }
  }

  lemma PlaceOrLast(before: seq<int>, n: int, i: int)
    ensures i in before + [n] <==> i in before || i == n
  {
    assert (before + [n])[|before|] == n;
  }

  lemma PlaceSkipped(db: Db, staged: seq<Event>, e: Event, at: seq<int>)
    requires PlacesOf(db, staged, at) && Passed(db, e)
    requires Selected(db, staged + [e]) == Selected(db, staged)
    ensures PlacesOf(db, staged + [e], at)
  {
    var more := staged + [e];
    forall k | 0 <= k < |at|
      ensures Selected(db, more)[k] == more[at[k]]
    {
      assert at[k] < |staged|;
    }
    forall i | 0 <= i < |more|
      ensures i in at <==> !Passed(db, more[i])
    {
      assert i < |staged| ==> more[i] == staged[i];
    }
  }

  /** Some event from place d on has at least the lsn of event i. */
  ghost predicate Overtaken(es: seq<Event>, d: nat, i: nat)
    requires i < |es|
  {
    exists j :: d <= j < |es| && es[i].lsn <= es[j].lsn
  }

  /** Every delete that arrives ahead of the client's first row is overtaken by what arrives
      from there on. */
  ghost predicate BareDeletesOvertaken(h: History, es: seq<Event>) {
    forall i | 0 <= i < LeadingDeletes(h, es) :: i < |es| && Overtaken(es, LeadingDeletes(h, es), i)
  }

  /** Of one client's events, exactly the bare deletes nothing overtook are still pending
      after the run. */
  lemma PassedAfterRun(s: ClientState, log: Log, es: seq<Event>, i: nat)
    requires LogOk(log) && AllLogged(log, es) && RowsOrFresh(s) && i < |es|
    requires s.watermark.Some? ==> s.watermark.value < es[i].lsn
    ensures var w := Run(s, es).watermark;
      (w.Some? && es[i].lsn <= w.value) <==>
      (LeadingDeletes(s.history, es) <= i || Overtaken(es, LeadingDeletes(s.history, es), i))
  {
    assert es[..|es|] == es;
    LeadingDeletesSpan(s.history, es);
    WatermarkIsRunningMaximum(s, log, es, |es|);
    assert Logged(log, es[i]);
  }

  lemma {:induction false} OfClientMembers(es: seq<Event>, c: Client, e: Event)
    ensures e in OfClient(es, c) <==> e in es && e.client == c
  {
    if es != [] {
      Snoc(es);
      OfClientMembers(DropLast(es), c, e);
    }
  }

  lemma OfClientLogged(logs: Logs, es: seq<Event>, c: Client)
    requires AllInLogs(logs, es)
    ensures AllLogged(LogOf(logs, c), OfClient(es, c))
  {
  }

  /** A selected event is passed by the run unless it is a bare delete nothing overtook. */
  lemma PassedInRun(db: Db, logs: Logs, staged: seq<Event>, c: Client, i: nat)
    requires LogsOk(logs) && AllInLogs(logs, Selected(db, staged)) && RowsOrFresh(Project(db, c))
    requires i < |OfClient(Selected(db, staged), c)|
    ensures var es, d := OfClient(Selected(db, staged), c), LeadingDeletes(HistoryOf(db, c), OfClient(Selected(db, staged), c));
      Passed(StreamRun(db, staged), es[i]) <==>
      (d <= i || Overtaken(es, d, i))
  {
    var sel := Selected(db, staged);
    var es := OfClient(sel, c);
    OfClientMembers(sel, c, es[i]);
    SelectedMembers(db, staged, es[i]);
    OfClientLogged(logs, sel, c);
    ClientSeesItsOwn(db, sel, c);
    PassedAfterRun(Project(db, c), LogOf(logs, c), es, i);
  }

  lemma PassedStaysPassed(db: Db, e: Event, passed: Event)
    requires Passed(db, passed)
    ensures Passed(HandleEvent(db, e), passed)
  {
  }

  lemma {:induction false} NothingUnpends(db: Db, es: seq<Event>, e: Event)
    requires Passed(db, e)
    ensures Passed(Handle(db, es), e)
  {
    if es != [] {
      NothingUnpends(db, DropLast(es), e);
      PassedStaysPassed(Handle(db, DropLast(es)), Last(es), e);
    }
  }

  /** A second run right after the first selects nothing - and then leaves every table alone -
      if and only if, for each client, every delete that arrived ahead of the client's first
      row was overtaken by a later arrival. */
  lemma RerunIsIdleIff(db: Db, logs: Logs, staged: seq<Event>)
    requires LogsOk(logs) && AllInLogs(logs, Selected(db, staged))
    requires forall c :: RowsOrFresh(Project(db, c))
    ensures Selected(StreamRun(db, staged), staged) == [] <==>
      forall c :: BareDeletesOvertaken(HistoryOf(db, c), OfClient(Selected(db, staged), c))
    ensures Selected(StreamRun(db, staged), staged) == [] ==>
      StreamRun(StreamRun(db, staged), staged) == StreamRun(db, staged)
  {
    var sel, after := Selected(db, staged), StreamRun(db, staged);
    var again := Selected(after, staged);
    if again != [] {
      var e := Last(again);
      SelectedMembers(after, staged, e);
      if Passed(db, e) {
        NothingUnpends(db, sel, e);
      }
      SelectedMembers(db, staged, e);
      OfClientMembers(sel, e.client, e);
      var i :| 0 <= i < |OfClient(sel, e.client)| && OfClient(sel, e.client)[i] == e;
      PassedInRun(db, logs, staged, e.client, i);
    } else {
      forall c
        ensures BareDeletesOvertaken(HistoryOf(db, c), OfClient(sel, c))
      {
        IdleMeansOvertaken(db, logs, staged, c);
      }
    }
  }

  lemma IdleMeansOvertaken(db: Db, logs: Logs, staged: seq<Event>, c: Client)
    requires LogsOk(logs) && AllInLogs(logs, Selected(db, staged)) && RowsOrFresh(Project(db, c))
    requires Selected(StreamRun(db, staged), staged) == []
    ensures BareDeletesOvertaken(HistoryOf(db, c), OfClient(Selected(db, staged), c))
  {
    var sel := Selected(db, staged);
    var es := OfClient(sel, c);
    LeadingDeletesSpan(HistoryOf(db, c), es);
    forall i | 0 <= i < LeadingDeletes(HistoryOf(db, c), es)
      ensures Overtaken(es, LeadingDeletes(HistoryOf(db, c), es), i)
    {
      OfClientMembers(sel, c, es[i]);
      SelectedMembers(db, staged, es[i]);
      SelectedMembers(StreamRun(db, staged), staged, es[i]);
      PassedInRun(db, logs, staged, c, i);
    }
  }

  /** What a run quarantines, in order. */
  function Rejections(db: Db, es: seq<Event>): seq<Rejection> {
    if es == [] then []
    else
      var e, before := Last(es), Handle(db, DropLast(es));
      match Judge(Project(before, e.client), e)
      case Applied => Rejections(db, DropLast(es))
      case Rejected(reason) =>
        Rejections(db, DropLast(es)) + [Rejection(reason, e.client, e.lsn, e.change)]
  }

  lemma {:induction false} QuarantineGrows(db: Db, es: seq<Event>)
    ensures Handle(db, es).quarantine == db.quarantine + Rejections(db, es)
  {
    if es != [] {
      QuarantineGrows(db, DropLast(es));
      HandleIsStep(Handle(db, DropLast(es)), Last(es));
    }
  }

  /** In a run over many clients each event is judged among its own client's events only: it is
      applied if and only if it is a strict maximum of those, past the leading deletes. */
  lemma JudgedAmongItsOwn(db: Db, logs: Logs, es: seq<Event>, i: nat)
    requires LogsOk(logs) && AllInLogs(logs, es) && i < |es| && RowsOrFresh(Project(db, es[i].client))
    ensures var c := es[i].client; var own := OfClient(es[..i + 1], c);
      && own != [] && Last(own) == es[i]
      && Judge(Project(Handle(db, es[..i]), c), es[i]) ==
           if |own| - 1 < LeadingDeletes(HistoryOf(db, c), own) then Rejected(DeleteWithNoBaseline)
           else if StrictMaximum(Project(db, c), own, |own| - 1) then Applied
           else Rejected(StaleLsn)
  {
    var c := es[i].client;
    var own := OfClient(es[..i + 1], c);
    assert DropLast(es[..i + 1]) == es[..i] && Last(es[..i + 1]) == es[i];
    ClientSeesItsOwn(db, es[..i], c);
    StepIgnoresKeys(Project(Handle(db, es[..i]), c), Run(Project(db, c), OfClient(es[..i], c)), es[i]);
    OfClientLogged(logs, es[..i + 1], c);
    assert own[..|own| - 1] == OfClient(es[..i], c);
    AppliesStrictMaxima(Project(db, c), LogOf(logs, c), own, |own| - 1);
  }

  lemma SimilarCurrentState(g: History, g': History, h: History, h': History)
    requires SameContent(g, g') && SameContent(h, h') && g' != map[] && h' != map[]
    requires SameCurrentState(g', h')
    ensures g != map[] && h != map[] && SameCurrentState(g, h)
  {
  }

  /** Two runs over the same events in different orders, or with different repetitions, leave a
      client that had rows in the same current state. */
  lemma RunOrderIsImmaterial(db: Db, logs: Logs, a: seq<Event>, b: seq<Event>, c: Client)
    requires LogsOk(logs) && AllInLogs(logs, a) && AllInLogs(logs, b)
    requires Clean(db, logs, c) && HistoryOf(db, c) != map[]
    requires forall e :: e in a <==> e in b
    requires forall e, f | e in a && f in a && e.client == f.client && e.lsn == f.lsn :: e == f
    ensures HistoryOf(Handle(db, a), c) != map[] && HistoryOf(Handle(db, b), c) != map[]
    ensures SameCurrentState(HistoryOf(Handle(db, a), c), HistoryOf(Handle(db, b), c))
    ensures Floor(WatermarkOf(Handle(db, a), c)) == Floor(WatermarkOf(Handle(db, b), c))
  {
    var s, x, y := Project(db, c), OfClient(a, c), OfClient(b, c);
    ClientSeesItsOwn(db, a, c);
    ClientSeesItsOwn(db, b, c);
    OfClientLogged(logs, a, c);
    OfClientLogged(logs, b, c);
    forall e
      ensures e in x <==> e in a && e.client == c
      ensures e in y <==> e in b && e.client == c
    {
      OfClientMembers(a, c, e);
      OfClientMembers(b, c, e);
    }
    CurrentStateIgnoresOrder(s, LogOf(logs, c), x, y);
    SimilarCurrentState(HistoryOf(Handle(db, a), c), Run(s, x).history, HistoryOf(Handle(db, b), c), Run(s, y).history);
  }

  lemma EventKeepsPast(db: Db, logs: Logs, e: Event, c: Client, started: int, t: int)
    requires LogsOk(logs) && Logged(LogOf(logs, e.client), e) && Clean(db, logs, c)
    requires started in HistoryOf(db, c) && t < HistoryOf(db, c)[started].validFrom
    ensures SameAnswer(HistoryOf(db, c), HistoryOf(HandleEvent(db, e), c), t)
    ensures started in HistoryOf(HandleEvent(db, e), c)
    ensures HistoryOf(HandleEvent(db, e), c)[started].validFrom == HistoryOf(db, c)[started].validFrom
  {
    if e.client == c {
      HandleIsStep(db, e);
      RunFirst(Project(db, c), [e]);
      assert Run(Step(Project(db, c), e), [e][1..]) == Step(Project(db, c), e);
      PastIsStable(Project(db, c), LogOf(logs, c), [e], started, t);
    } else {
      HandleKeepsOthers(db, e, c);
    }
  }

  /** Once a version of a client has started, no streaming run changes what a lookup before its
      start returns, down to the surrogate key the facts hold. */
  lemma {:induction false} RunKeepsPast(db: Db, logs: Logs, es: seq<Event>, c: Client, started: int, t: int)
    requires LogsOk(logs) && AllInLogs(logs, es) && Clean(db, logs, c)
    requires started in HistoryOf(db, c) && t < HistoryOf(db, c)[started].validFrom
    ensures SameAnswer(HistoryOf(db, c), HistoryOf(Handle(db, es), c), t)
    ensures started in HistoryOf(Handle(db, es), c)
    ensures HistoryOf(Handle(db, es), c)[started].validFrom == HistoryOf(db, c)[started].validFrom
  {
    if es != [] {
      var mid := Handle(db, DropLast(es));
      RunKeepsPast(db, logs, DropLast(es), c, started, t);
      HandleKeepsClean(db, logs, DropLast(es), c);
      EventKeepsPast(mid, logs, Last(es), c, started, t);
    }
  }

  /** Two overlapping runs may select the same events before either takes a client's lock.  The
      lock is held to the end of the transaction, so the client sees the whole list twice.  The
      second pass leaves its rows and watermark alone if and only if there is no row to delete
      after the first, or every delete that came ahead of the first row was overtaken. */
  lemma SecondPassIsIdleIff(s: ClientState, log: Log, es: seq<Event>)
    requires LogOk(log) && AllLogged(log, es) && RowsOrFresh(s)
    ensures var once, twice := Run(s, es), Run(Run(s, es), es);
      twice.history == once.history && Floor(twice.watermark) == Floor(once.watermark) <==>
        LeadingDeletes(s.history, es) == |es| || BareDeletesOvertaken(s.history, es)
  {
    var d := LeadingDeletes(s.history, es);
    var once := Run(s, es);
    assert es[..|es|] == es;
    LeadingDeletesSpan(s.history, es);
    GateOpens(s, log, es, |es|);
    if d < |es| {
      WatermarkIsRunningMaximum(s, log, es, |es|);
      if BareDeletesOvertaken(s.history, es) {
        AllPassed(s, es, Floor(once.watermark));
        NothingAbove(once, es);
      } else {
        WatermarkIsRunningMaximum(once, log, es, |es|);
        LeadingDeletesSpan(once.history, es);
        var i :| 0 <= i < d && !Overtaken(es, d, i);
        assert Logged(log, es[i]);
      }
    }
  }

  lemma AllPassed(s: ClientState, es: seq<Event>, floor: int)
    requires RunningMaximum(s, es, |es|, floor) && BareDeletesOvertaken(s.history, es)
    ensures forall e | e in es :: e.lsn <= floor
  {
    LeadingDeletesSpan(s.history, es);
    forall i | 0 <= i < |es|
      ensures es[i].lsn <= floor
    {
      if i < LeadingDeletes(s.history, es) {
        assert Overtaken(es, LeadingDeletes(s.history, es), i);
      }
    }
  }
}

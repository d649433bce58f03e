/** Reloading the same window twice (reload.py; the property scripts/verify.sh looks for). */
module ReloadTwice {
  import opened Model
  import opened FiniteSets
  import opened Histories
  import opened ClientCdc
  import opened ClientReload
  import opened StopgapReload
  import opened ReloadAgain
  import opened Database
  import opened StreamRuns
  import opened FactIntegrity
  import opened ReloadSteps
  import opened ReloadRuns

  /** Both fact versions sit on the row with the same lsn. */
  ghost predicate SameRow(db: Db, after: Db, c: Client, key: int, newKey: int) {
    exists l :: IsRow(db, c, l, key) && IsRow(after, c, l, newKey)
  }

  /** Rows below the reset point keep their keys. */
  lemma LowerRowsKeepKeys(s: ClientState, from: int, es: seq<Event>, attrs: Option<Attributes>, l: int)
    requires l in s.history && l < from && (attrs.Some? ==> Below(s.history, from) == map[])
    ensures l in Reload(s, from, es, attrs).history && Reload(s, from, es, attrs).history[l].key == s.history[l].key
  {
    assert l in Below(s.history, from);
    ResetTouchesOneRow(s, from, l);
    RunKeepsKeys(Reset(s, from), es, l);
  }

  /** What one reload does to one of the client's facts: it was on a row at or above the reset
      point and is now on the only row covering its day, or it was and is on a lower row. */
  ghost predicate FactOutcome(tr: Trace, c: Client, from: int, id: FactId)
    requires id in tr.start.facts
  {
    && id in tr.finish.facts
    && tr.finish.facts[id] == tr.start.facts[id].(snapshotKey := tr.finish.facts[id].snapshotKey)
    && ((exists m, l :: from <= m && MovedFrom(tr, c, from, id, m) && LandedOn(tr, c, id, l))
        || exists l :: l < from && Stayed(tr, c, id, l))
  }

  ghost predicate MovedFrom(tr: Trace, c: Client, from: int, id: FactId, m: int)
    requires id in tr.start.facts
  {
    IsRow(tr.start, c, m, tr.start.facts[id].snapshotKey)
  }

  ghost predicate LandedOn(tr: Trace, c: Client, id: FactId, l: int)
    requires id in tr.start.facts && id in tr.finish.facts
  {
    && IsRow(tr.finish, c, l, tr.finish.facts[id].snapshotKey)
    && Covering(HistoryOf(tr.finish, c), Midnight(tr.start.facts[id].day)) == {l}
  }

  ghost predicate Stayed(tr: Trace, c: Client, id: FactId, l: int)
    requires id in tr.start.facts && id in tr.finish.facts
  {
    && tr.finish.facts[id] == tr.start.facts[id]
    && IsRow(tr.start, c, l, tr.start.facts[id].snapshotKey)
    && IsRow(tr.finish, c, l, tr.start.facts[id].snapshotKey)
  }

  lemma UnmovedFactStays(tr: Trace, raw: Logs, c: Client, from: int, es: seq<Event>, pick: int, id: FactId)
    returns (l: int)
    requires Reloadable(tr.start, raw, c, from, es) && IsReload(tr, c, from, es, pick)
    requires id in tr.start.facts && tr.start.facts[id].client == c && id !in tr.parking.parked
    ensures id in tr.finish.facts && l < from && Stayed(tr, c, id, l)
  {
    var f := tr.start.facts[id];
    UnparkedStay(tr, c, from, es, pick);
    assert Anchored(tr.start, f);
    l :| AnchoredAt(tr.start, f, l);
    assert f.snapshotKey !in DoomedKeys(HistoryOf(tr.start, c), from);
    assert l < from;
    ReloadableCalls(tr, raw, c, from, es, pick);
    TraceReloads(tr, raw, c, from, es, pick);
    LowerRowsKeepKeys(Project(tr.start, c), from, es, tr.parking.placeholder, l);
    assert IsRow(tr.finish, c, l, f.snapshotKey);
  }

  lemma ReloadHasOutcome(tr: Trace, raw: Logs, c: Client, from: int, es: seq<Event>, pick: int, id: FactId)
    requires Reloadable(tr.start, raw, c, from, es) && IsReload(tr, c, from, es, pick)
    requires id in tr.start.facts && tr.start.facts[id].client == c && Disjoint(HistoryOf(tr.finish, c))
    ensures FactOutcome(tr, c, from, id)
  {
    OnlyParkedFactsMove(tr, raw, c, from, es, pick, id);
    if id in tr.parking.parked {
      var m := ParkedFact(tr.start, raw, c, from, es, id);
      var l := MovedFactsAreAsOf(tr, raw, c, from, es, pick, id);
      assert l in Covering(HistoryOf(tr.finish, c), Midnight(tr.start.facts[id].day));
      assert MovedFrom(tr, c, from, id, m) && LandedOn(tr, c, id, l);
    } else {
      var l := UnmovedFactStays(tr, raw, c, from, es, pick, id);
    }
  }

  /** Two reloads of a client with the same log, one right after the other as far as the client
      is concerned. */
  ghost predicate Repeats(one: Trace, two: Trace, raw: Logs, c: Client, from: int, es: seq<Event>, p: int, q: int) {
    && Reloadable(one.start, raw, c, from, es) && IsReload(one, c, from, es, p)
    && Reloadable(two.start, raw, c, from, es) && IsReload(two, c, from, es, q)
    && SameFor(one.finish, two.start, c)
  }

  lemma FactsReferAgain(one: Trace, two: Trace, raw: Logs, c: Client, from: int, es: seq<Event>, p: int, q: int)
    requires Repeats(one, two, raw, c, from, es, p, q)
    requires Below(HistoryOf(one.start, c), from) == map[] && one.parking.parked != {}
    ensures Referring(two.start, DoomedKeys(HistoryOf(two.start, c), from)) != {}
  {
    var id := Pick(one.parking.parked);
    var l := MovedFactsAreAsOf(one, raw, c, from, es, p, id);
    assert Logged(LogOf(raw, c), es[0]);
    NoSurvivorNoStopgap(HistoryOf(one.start, c), from);
    ReloadLayers(one, raw, c, from, es, p);
    assert from <= l;
    UnparkedStay(one, c, from, es, p);
    OnlyParkedFactsMove(one, raw, c, from, es, p, id);
    assert one.finish.facts[id].client == c;
    assert id in Referring(two.start, DoomedKeys(HistoryOf(two.start, c), from));
  }

  lemma FactsReferredBefore(one: Trace, two: Trace, raw: Logs, c: Client, from: int, es: seq<Event>, p: int, q: int)
    requires Repeats(one, two, raw, c, from, es, p, q)
    requires Below(HistoryOf(one.start, c), from) == map[]
    requires Referring(two.start, DoomedKeys(HistoryOf(two.start, c), from)) != {}
    ensures one.parking.parked != {}
  {
    var id := Pick(Referring(two.start, DoomedKeys(HistoryOf(two.start, c), from)));
    var m := ParkedFact(two.start, raw, c, from, es, id);
    assert id in one.finish.facts && one.finish.facts[id].client == c;
    ReloadMakesNoFacts(one, raw, c, from, es, p, id);
    forall l | l in HistoryOf(one.start, c)
      ensures from <= l
    {
      assert l < from ==> l in Below(HistoryOf(one.start, c), from);
    }
    if id !in one.parking.parked {
      var l := UnmovedFactStays(one, raw, c, from, es, p, id);
    }
  }

  lemma StillNoSurvivor(one: Trace, raw: Logs, c: Client, from: int, es: seq<Event>, p: int)
    requires Reloadable(one.start, raw, c, from, es) && IsReload(one, c, from, es, p)
    ensures Below(HistoryOf(one.finish, c), from) == map[] <==> Below(HistoryOf(one.start, c), from) == map[]
  {
    ReloadableCalls(one, raw, c, from, es, p);
    TraceReloads(one, raw, c, from, es, p);
    ReloadResets(Project(one.start, c), LogOf(raw, c), from, es, one.parking.placeholder);
    SurvivorsStay(Project(one.start, c), from);
    SurvivorsStay(Project(one.finish, c), from);
  }

  /** A client without survivors needs a placeholder both times or not at all. */
  lemma NeedsAgain(one: Trace, two: Trace, raw: Logs, c: Client, from: int, es: seq<Event>, p: int, q: int)
    requires Repeats(one, two, raw, c, from, es, p, q)
    ensures one.parking.placeholder.Some? <==> two.parking.placeholder.Some?
  {
    PlaceholderOfTrace(one, c, from, es, p);
    PlaceholderOfTrace(two, c, from, es, q);
    StillNoSurvivor(one, raw, c, from, es, p);
    if NeedsPlaceholder(one.start, c, from) {
      FactsReferAgain(one, two, raw, c, from, es, p, q);
    } else if NeedsPlaceholder(two.start, c, from) {
      FactsReferredBefore(one, two, raw, c, from, es, p, q);
    }
  }

  lemma RepeatIsCall(one: Trace, two: Trace, raw: Logs, c: Client, from: int, es: seq<Event>, p: int, q: int)
    requires Repeats(one, two, raw, c, from, es, p, q)
    ensures var s, a, b := Project(one.start, c), one.parking.placeholder, two.parking.placeholder;
      && RepeatCall(s, LogOf(raw, c), from, es, a, b)
      && Project(one.finish, c) == Reload(s, from, es, a)
      && Similar(Project(two.finish, c), Reload(Reload(s, from, es, a), from, es, b))
  {
    var s, a, b := Project(one.start, c), one.parking.placeholder, two.parking.placeholder;
    ReloadableCalls(one, raw, c, from, es, p);
    ReloadableCalls(two, raw, c, from, es, q);
    TraceReloads(one, raw, c, from, es, p);
    TraceReloads(two, raw, c, from, es, q);
    ReloadKeepsLayered(s, LogOf(raw, c), from, es, a);
    CallIgnoresKeys(Project(two.start, c), Reload(s, from, es, a), LogOf(raw, c), from, es, b);
    ReloadIgnoresKeys(Project(two.start, c), Reload(s, from, es, a), from, es, b);
  }

  /** Both placeholders copied the same values. */
  ghost predicate SameCopies(db: Db, again: Db, c: Client, pick: int, second: int) {
    && pick in HistoryOf(db, c) && second in HistoryOf(again, c)
    && Carried(HistoryOf(db, c)[pick].attrs) == Carried(HistoryOf(again, c)[second].attrs)
  }

  /** When two reloads of one client start alike. */
  ghost predicate StartAlike(db: Db, again: Db, c: Client, from: int, es: seq<Event>, pick: int, second: int)
    requires es != []
  {
    || Below(HistoryOf(db, c), from) != map[]
    || !es[0].change.Delete?
    || !NeedsPlaceholder(db, c, from)
    || SameCopies(db, again, c, pick, second)
  }

  lemma PlaceholderCopies(tr: Trace, c: Client, from: int, es: seq<Event>, pick: int)
    requires IsReload(tr, c, from, es, pick) && NeedsPlaceholder(tr.start, c, from)
    ensures pick in HistoryOf(tr.start, c) && tr.parking.placeholder == Some(HistoryOf(tr.start, c)[pick].attrs)
  {
  }

  lemma AlikeIff(one: Trace, two: Trace, raw: Logs, c: Client, from: int, es: seq<Event>, p: int, q: int)
    requires Repeats(one, two, raw, c, from, es, p, q)
    ensures RepeatsAlike(Project(one.start, c), from, es, one.parking.placeholder, two.parking.placeholder)
      <==> StartAlike(one.start, two.start, c, from, es, p, q)
  {
    NeedsAgain(one, two, raw, c, from, es, p, q);
    PlaceholderOfTrace(one, c, from, es, p);
    PlaceholderOfTrace(two, c, from, es, q);
    if NeedsPlaceholder(one.start, c, from) {
      PlaceholderCopies(one, c, from, es, p);
      PlaceholderCopies(two, c, from, es, q);
    }
  }

  /** A fact that went through two reloads with the same windows in between and after. */
  lemma OutcomesAgree(one: Trace, two: Trace, c: Client, from: int, id: FactId)
    requires KeysUnique(one.finish) && HistoryOf(two.start, c) == HistoryOf(one.finish, c)
    requires SameWindows(HistoryOf(two.finish, c), HistoryOf(one.finish, c))
    requires id in one.start.facts && FactOutcome(one, c, from, id)
    requires id in two.start.facts && FactOutcome(two, c, from, id)
    requires two.start.facts[id] == one.finish.facts[id]
    ensures SameRow(one.finish, two.finish, c, one.finish.facts[id].snapshotKey, two.finish.facts[id].snapshotKey)
  {
    var key := one.finish.facts[id].snapshotKey;
    WindowsAnswerAlike(HistoryOf(two.finish, c), HistoryOf(one.finish, c), Midnight(one.start.facts[id].day));
    if l :| l < from && Stayed(two, c, id, l) {
      assert IsRow(one.finish, c, l, key);
    } else {
      var m, l :| from <= m && MovedFrom(two, c, from, id, m) && LandedOn(two, c, id, l);
      assert IsRow(one.finish, c, m, key);
      forall x | IsRow(one.finish, c, x, key)
        ensures x == m
      {
      }
      if !exists l0 :: l0 < from && Stayed(one, c, id, l0) {
        var m1, l1 :| from <= m1 && MovedFrom(one, c, from, id, m1) && LandedOn(one, c, id, l1);
        assert {l} == {l1};
      }
    }
  }

  lemma WindowsDisjointAlike(g: History, h: History)
    requires SameWindows(g, h) && Disjoint(h)
    ensures Disjoint(g)
  {
    forall l, m, t | l in Covering(g, t) && m in Covering(g, t)
      ensures l == m
    {
      WindowsAnswerAlike(g, h, t);
    }
  }

  lemma RepeatHasWindows(one: Trace, two: Trace, raw: Logs, c: Client, from: int, es: seq<Event>, p: int, q: int)
    requires Repeats(one, two, raw, c, from, es, p, q)
    ensures SameWindows(HistoryOf(two.finish, c), HistoryOf(one.finish, c))
  {
    var s, a, b := Project(one.start, c), one.parking.placeholder, two.parking.placeholder;
    RepeatIsCall(one, two, raw, c, from, es, p, q);
    NeedsAgain(one, two, raw, c, from, es, p, q);
    RepeatKeepsWindows(s, LogOf(raw, c), from, es, a, b);
    var once := Reload(s, from, es, a);
    ContentGivesWindows(once.history, once.history);
    WindowsThrough(HistoryOf(two.finish, c), Reload(once, from, es, b).history, once.history, once.history);
  }

  /** Reloading the same window again leaves the client's rows and watermark as they were, up to a
      renaming of surrogate keys, if and only if the two reloads start alike: a version survives,
      an insert or update comes first, no placeholder is needed, or both copied the same values.
      Where windows do not overlap, each of its facts is on the same row as before in any case. */
  lemma SecondReloadIsIdleIff(one: Trace, two: Trace, raw: Logs, c: Client, from: int, es: seq<Event>, p: int, q: int)
    requires Repeats(one, two, raw, c, from, es, p, q)
    ensures Similar(Project(one.finish, c), Project(two.finish, c)) <==>
      StartAlike(one.start, two.start, c, from, es, p, q)
    ensures Disjoint(HistoryOf(one.finish, c)) ==>
      forall id | id in one.start.facts && one.start.facts[id].client == c ::
        id in one.finish.facts && id in two.finish.facts
        && SameRow(one.finish, two.finish, c, one.finish.facts[id].snapshotKey, two.finish.facts[id].snapshotKey)
  {
    RepeatRowsIff(one, two, raw, c, from, es, p, q);
    if Disjoint(HistoryOf(one.finish, c)) {
      forall id | id in one.start.facts && one.start.facts[id].client == c
        ensures id in one.finish.facts && id in two.finish.facts
        ensures SameRow(one.finish, two.finish, c, one.finish.facts[id].snapshotKey, two.finish.facts[id].snapshotKey)
      {
        RepeatKeepsFactRow(one, two, raw, c, from, es, p, q, id);
      }
    }
  }

  lemma RepeatRowsIff(one: Trace, two: Trace, raw: Logs, c: Client, from: int, es: seq<Event>, p: int, q: int)
    requires Repeats(one, two, raw, c, from, es, p, q)
    ensures Similar(Project(one.finish, c), Project(two.finish, c)) <==>
      StartAlike(one.start, two.start, c, from, es, p, q)
  {
    var s, a, b := Project(one.start, c), one.parking.placeholder, two.parking.placeholder;
    RepeatIsCall(one, two, raw, c, from, es, p, q);
    AlikeIff(one, two, raw, c, from, es, p, q);
    ReloadIsIdempotentIff(s, LogOf(raw, c), from, es, a, b);
    SimilarEitherWay(Project(two.finish, c), Reload(Reload(s, from, es, a), from, es, b), Reload(s, from, es, a));
  }

  lemma SimilarEitherWay(x: ClientState, y: ClientState, z: ClientState)
    requires Similar(x, y)
    ensures Similar(z, x) <==> Similar(y, z)
  {
    forall l | l in x.history
      ensures x.history[l].(key := 0) == y.history[l].(key := 0)
    {
    }
  }

  lemma RepeatKeepsFactRow(one: Trace, two: Trace, raw: Logs, c: Client, from: int, es: seq<Event>, p: int, q: int, id: FactId)
    requires Repeats(one, two, raw, c, from, es, p, q) && Disjoint(HistoryOf(one.finish, c))
    requires id in one.start.facts && one.start.facts[id].client == c
    ensures id in one.finish.facts && id in two.finish.facts
    ensures SameRow(one.finish, two.finish, c, one.finish.facts[id].snapshotKey, two.finish.facts[id].snapshotKey)
  {
    RepeatHasWindows(one, two, raw, c, from, es, p, q);
    WindowsDisjointAlike(HistoryOf(two.finish, c), HistoryOf(one.finish, c));
    ReloadKeepsIntegrity(one, raw, c, from, es, p);
    ReloadHasOutcome(one, raw, c, from, es, p, id);
    ReloadHasOutcome(two, raw, c, from, es, q, id);
    OutcomesAgree(one, two, c, from, id);
  }

  /** The same window reloaded twice, client by client, whichever order the clients come in: the
      second run leaves a client's rows and watermark as the first one did, up to surrogate keys,
      if and only if the client had a surviving version, its log starts there with an insert or
      update, it needed no placeholder, or both placeholders copied the same values.  Where
      windows do not overlap, its facts stay on the same rows in any case. */
  lemma SecondRunIsIdleIff(start: Db, raw: Logs, fromTs: int, toTs: int,
                           clients: seq<Client>, traces: seq<Trace>, picks: seq<int>, i: nat,
                           clients2: seq<Client>, traces2: seq<Trace>, picks2: seq<int>, j: nat)
    requires Ready(start, raw, fromTs, toTs)
    requires IsReloadRun(start, raw, fromTs, toTs, clients, traces, picks) && i < |traces| && Distinct(clients)
    requires var end := StateAfter(start, traces, |traces|);
      IsReloadRun(end, raw, fromTs, toTs, clients2, traces2, picks2) && j < |traces2| && Distinct(clients2)
    requires clients[i] == clients2[j] && clients[i] in Affected(raw, fromTs, toTs)
    ensures var c, from := clients[i], ResetPoint(raw, clients[i], fromTs, toTs);
      var end := StateAfter(start, traces, |traces|); var end2 := StateAfter(end, traces2, |traces2|);
      && EventsFrom(raw, c, from) != []
      && (Similar(Project(end, c), Project(end2, c)) <==>
            StartAlike(start, end, c, from, EventsFrom(raw, c, from), picks[i], picks2[j]))
      && (Disjoint(HistoryOf(end, c)) ==>
            forall id | id in start.facts && start.facts[id].client == c ::
              id in end.facts && id in end2.facts
              && SameRow(end, end2, c, end.facts[id].snapshotKey, end2.facts[id].snapshotKey))
  {
    var c, end := clients[i], StateAfter(start, traces, |traces|);
    var from := ResetPoint(raw, c, fromTs, toTs);
    var es := EventsFrom(raw, c, from);
    RepeatedRuns(start, raw, fromTs, toTs, clients, traces, picks, i, clients2, traces2, picks2, j);
    SecondReloadIsIdleIff(traces[i], traces2[j], raw, c, from, es, picks[i], picks2[j]);
    EventsFromLog(raw, c, from);
    RunsSeenByClient(start, end, StateAfter(end, traces2, |traces2|), traces[i], traces2[j], raw, c, from, es, picks[i], picks2[j]);
  }

  /** What the tables of the two runs hold of a client is what its own two reloads left. */
  lemma RunsSeenByClient(start: Db, end: Db, end2: Db, one: Trace, two: Trace, raw: Logs, c: Client,
                         from: int, es: seq<Event>, p: int, q: int)
    requires Repeats(one, two, raw, c, from, es, p, q)
    requires Reloadable(start, raw, c, from, es) && SameFor(start, one.start, c)
    requires SameFor(one.finish, end, c) && SameFor(end, two.start, c) && SameFor(two.finish, end2, c)
    ensures Similar(Project(end, c), Project(end2, c)) <==> Similar(Project(one.finish, c), Project(two.finish, c))
    ensures StartAlike(start, end, c, from, es, p, q) <==> StartAlike(one.start, two.start, c, from, es, p, q)
    ensures forall id | id in start.facts && start.facts[id].client == c
        && id in one.finish.facts && id in two.finish.facts
        && SameRow(one.finish, two.finish, c, one.finish.facts[id].snapshotKey, two.finish.facts[id].snapshotKey) ::
      id in end.facts && id in end2.facts
      && SameRow(end, end2, c, end.facts[id].snapshotKey, end2.facts[id].snapshotKey)
  {
    NeedIsLocal(start, one.start, raw, c, from, es);
    forall id | id in start.facts && start.facts[id].client == c
        && id in one.finish.facts && id in two.finish.facts
        && SameRow(one.finish, two.finish, c, one.finish.facts[id].snapshotKey, two.finish.facts[id].snapshotKey)
      ensures id in end.facts && id in end2.facts
      ensures SameRow(end, end2, c, end.facts[id].snapshotKey, end2.facts[id].snapshotKey)
    {
      ReloadKeepsClient(one, raw, c, from, es, p, id);
      ReloadKeepsClient(two, raw, c, from, es, q, id);
      var l :| IsRow(one.finish, c, l, one.finish.facts[id].snapshotKey)
               && IsRow(two.finish, c, l, two.finish.facts[id].snapshotKey);
      assert IsRow(end, c, l, end.facts[id].snapshotKey);
    }
  }

  lemma ReloadKeepsClient(tr: Trace, raw: Logs, c: Client, from: int, es: seq<Event>, pick: int, id: FactId)
    requires Reloadable(tr.start, raw, c, from, es) && IsReload(tr, c, from, es, pick) && id in tr.start.facts
    ensures id in tr.finish.facts && tr.finish.facts[id].client == tr.start.facts[id].client
  {
    OnlyParkedFactsMove(tr, raw, c, from, es, pick, id);
  }

  lemma RepeatedRuns(start: Db, raw: Logs, fromTs: int, toTs: int,
                     clients: seq<Client>, traces: seq<Trace>, picks: seq<int>, i: nat,
                     clients2: seq<Client>, traces2: seq<Trace>, picks2: seq<int>, j: nat)
    requires Ready(start, raw, fromTs, toTs)
    requires IsReloadRun(start, raw, fromTs, toTs, clients, traces, picks) && i < |traces| && Distinct(clients)
    requires var end := StateAfter(start, traces, |traces|);
      IsReloadRun(end, raw, fromTs, toTs, clients2, traces2, picks2) && j < |traces2| && Distinct(clients2)
    requires clients[i] == clients2[j] && clients[i] in Affected(raw, fromTs, toTs)
    ensures var c, from := clients[i], ResetPoint(raw, clients[i], fromTs, toTs);
      Repeats(traces[i], traces2[j], raw, c, from, EventsFrom(raw, c, from), picks[i], picks2[j])
    ensures SameFor(start, traces[i].start, clients[i])
    ensures var end := StateAfter(start, traces, |traces|);
      SameFor(traces[i].finish, end, clients[i])
      && SameFor(traces2[j].finish, StateAfter(end, traces2, |traces2|), clients[i])
    ensures SameFor(StateAfter(start, traces, |traces|), traces2[j].start, clients[i])
    ensures var c, from := clients[i], ResetPoint(raw, clients[i], fromTs, toTs);
      Reloadable(start, raw, c, from, EventsFrom(raw, c, from))
  {
    var c, end := clients[i], StateAfter(start, traces, |traces|);
    RunKeepsSound(start, raw, fromTs, toTs, clients, traces, picks, |traces|);
    forall d | d in Affected(raw, fromTs, toTs)
      ensures LayeredIn(end, raw, d)
    {
    }
    StepOfRun(start, raw, fromTs, toTs, clients, traces, picks, i);
    StepOfRun(end, raw, fromTs, toTs, clients2, traces2, picks2, j);
    OwnReload(start, raw, fromTs, toTs, clients, traces, picks, i);
    OwnReload(end, raw, fromTs, toTs, clients2, traces2, picks2, j);
    SameForChain(traces[i].finish, end, traces2[j].start, c);
    SoundIsReloadable(start, raw, c, ResetPoint(raw, c, fromTs, toTs));
  }
}

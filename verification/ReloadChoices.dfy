/** Which row a placeholder copies is up to the database.  When a second reload of the same window
changes no client's rows whatever was copied in either (reload.py, scripts/verify.sh).
*/
module ReloadChoices {
  import opened Model
  import opened ClientCdc
  import opened Replay
  import opened ClientReload
  import opened StopgapReload
  import opened ReloadAgain
  import opened Database
  import opened StreamRuns
  import opened ReloadSteps
  import opened ReloadRuns
  import opened ReloadTwice
  import opened Completion

  /** Some reload of the window leads from start to end. */
  ghost predicate Reloaded(start: Db, end: Db, raw: Logs, fromTs: int, toTs: int) {
    exists clients, traces, picks :: IsWholeRun(start, end, raw, fromTs, toTs, clients, traces, picks)
  }

  /** Rows and watermark of every client, surrogate keys aside. */
  ghost predicate SameRows(db: Db, after: Db) {
    forall c :: Similar(Project(db, c), Project(after, c))
  }

  /** No placeholder is needed, or none can show, or whatever it copies is the same value: the
      doomed rows and the logged inserts and updates agree. */
  ghost predicate ChoiceIsImmaterial(db: Db, raw: Logs, c: Client, fromTs: int, toTs: int)
    requires c in Affected(raw, fromTs, toTs)
  {
    var from := ResetPoint(raw, c, fromTs, toTs);
    NeedsPlaceholder(db, c, from) && raw[c][from].change.Delete? ==>
      OneValue(HistoryOf(db, c), EventsFrom(raw, c, from))
  }

  /** The placeholder's values, and the call they make. */
  lemma CopiedValues(start: Db, raw: Logs, fromTs: int, toTs: int,
                     clients: seq<Client>, traces: seq<Trace>, picks: seq<int>, i: nat)
    requires IsReloadRun(start, raw, fromTs, toTs, clients, traces, picks) && i < |traces| && Distinct(clients)
    requires Ready(start, raw, fromTs, toTs) && clients[i] in Affected(raw, fromTs, toTs)
    requires NeedsPlaceholder(start, clients[i], ResetPoint(raw, clients[i], fromTs, toTs))
    ensures picks[i] in HistoryOf(start, clients[i])
    ensures var c, from := clients[i], ResetPoint(raw, clients[i], fromTs, toTs);
      var es, a := EventsFrom(raw, c, from), HistoryOf(start, c)[picks[i]].attrs;
      && LayeredCall(Project(start, c), LogOf(raw, c), from, es, Some(a))
      && Similar(Project(StateAfter(start, traces, |traces|), c), Reload(Project(start, c), from, es, Some(a)))
  {
    var c, from := clients[i], ResetPoint(raw, clients[i], fromTs, toTs);
    StepOfRun(start, raw, fromTs, toTs, clients, traces, picks, i);
    OwnReload(start, raw, fromTs, toTs, clients, traces, picks, i);
    PlaceholderIffNeeded(start, raw, fromTs, toTs, clients, traces, picks, i);
    PlaceholderOfTrace(traces[i], c, from, EventsFrom(raw, c, from), picks[i]);
    PlaceholderCopies(traces[i], c, from, EventsFrom(raw, c, from), picks[i]);
    RunReloads(start, raw, fromTs, toTs, clients, traces, picks, i);
    RunCall(start, raw, fromTs, toTs, clients, traces, picks, i, Project(start, c));
  }

  lemma FirstIsDelete(raw: Logs, c: Client, fromTs: int, toTs: int)
    requires LogsOk(raw) && c in Affected(raw, fromTs, toTs)
    ensures var from := ResetPoint(raw, c, fromTs, toTs);
      EventsFrom(raw, c, from) != [] && EventsFrom(raw, c, from)[0].change == raw[c][from].change
  {
    FirstEvent(raw, c, ResetPoint(raw, c, fromTs, toTs));
  }

  /** With one value throughout, the two placeholders carry it. */
  lemma OneValueStartsAlike(start: Db, raw: Logs, fromTs: int, toTs: int,
                            clients: seq<Client>, traces: seq<Trace>, picks: seq<int>, i: nat, again: int)
    requires IsReloadRun(start, raw, fromTs, toTs, clients, traces, picks) && i < |traces| && Distinct(clients)
    requires Ready(start, raw, fromTs, toTs) && clients[i] in Affected(raw, fromTs, toTs)
    requires ChoiceIsImmaterial(start, raw, clients[i], fromTs, toTs)
    requires var c, from := clients[i], ResetPoint(raw, clients[i], fromTs, toTs);
      again in HistoryOf(StateAfter(start, traces, |traces|), c) || !NeedsPlaceholder(start, c, from)
    ensures var c, from, end := clients[i], ResetPoint(raw, clients[i], fromTs, toTs), StateAfter(start, traces, |traces|);
      var es := EventsFrom(raw, c, from);
      es != [] && StartAlike(start, end, c, from, es, picks[i], again)
  {
    var c, from, end := clients[i], ResetPoint(raw, clients[i], fromTs, toTs), StateAfter(start, traces, |traces|);
    var es := EventsFrom(raw, c, from);
    FirstIsDelete(raw, c, fromTs, toTs);
    if NeedsPlaceholder(start, c, from) && es[0].change.Delete? {
      CopiedValues(start, raw, fromTs, toTs, clients, traces, picks, i);
      var a := HistoryOf(start, c)[picks[i]].attrs;
      var once := Reload(Project(start, c), from, es, Some(a));
      OneValueAt(HistoryOf(start, c), es, picks[i]);
      OneValueStays(Project(start, c), LogOf(raw, c), from, es, a, again);
      SameValueInBoth(HistoryOf(end, c), once.history, again);
    }
  }

  lemma OneValueAt(h: History, es: seq<Event>, pick: int)
    requires OneValue(h, es) && pick in h
    ensures EventsCarry(es, h[pick].attrs)
  {
  }

  lemma SameValueInBoth(g: History, h: History, l: int)
    requires SameContent(g, h) && l in g
    ensures l in h && g[l].attrs == h[l].attrs
  {
    assert g[l].(key := 0) == h[l].(key := 0);
  }

  /** The second run needs the copy of a row it finds. */
  lemma SecondPick(start: Db, raw: Logs, fromTs: int, toTs: int,
                   clients: seq<Client>, traces: seq<Trace>, picks: seq<int>, i: nat,
                   clients2: seq<Client>, traces2: seq<Trace>, picks2: seq<int>, j: nat)
    requires Ready(start, raw, fromTs, toTs)
    requires IsReloadRun(start, raw, fromTs, toTs, clients, traces, picks) && i < |traces| && Distinct(clients)
    requires var end := StateAfter(start, traces, |traces|);
      IsReloadRun(end, raw, fromTs, toTs, clients2, traces2, picks2) && j < |traces2| && Distinct(clients2)
    requires clients[i] == clients2[j] && clients[i] in Affected(raw, fromTs, toTs)
    ensures var c, from := clients[i], ResetPoint(raw, clients[i], fromTs, toTs);
      picks2[j] in HistoryOf(StateAfter(start, traces, |traces|), c) || !NeedsPlaceholder(start, c, from)
  {
    var c, from := clients[i], ResetPoint(raw, clients[i], fromTs, toTs);
    var es := EventsFrom(raw, c, from);
    RepeatedRuns(start, raw, fromTs, toTs, clients, traces, picks, i, clients2, traces2, picks2, j);
    NeedsAgain(traces[i], traces2[j], raw, c, from, es, picks[i], picks2[j]);
    PlaceholderIffNeeded(start, raw, fromTs, toTs, clients, traces, picks, i);
    PlaceholderOfTrace(traces2[j], c, from, es, picks2[j]);
  }

  /** Two runs over immaterial choices agree on every client. */
  lemma ImmaterialRunsAgree(start: Db, end: Db, end2: Db, raw: Logs, fromTs: int, toTs: int, c: Client)
    requires Ready(start, raw, fromTs, toTs)
    requires Reloaded(start, end, raw, fromTs, toTs) && Reloaded(end, end2, raw, fromTs, toTs)
    requires c in Affected(raw, fromTs, toTs) ==> ChoiceIsImmaterial(start, raw, c, fromTs, toTs)
    ensures Similar(Project(end, c), Project(end2, c))
  {
    var clients, traces, picks :| IsWholeRun(start, end, raw, fromTs, toTs, clients, traces, picks);
    var clients2, traces2, picks2 :| IsWholeRun(end, end2, raw, fromTs, toTs, clients2, traces2, picks2);
    ReadyAgain(start, end, raw, fromTs, toTs, clients, traces, picks);
    if c in Affected(raw, fromTs, toTs) {
      var i :| 0 <= i < |clients| && clients[i] == c;
      var j :| 0 <= j < |clients2| && clients2[j] == c;
      SecondPick(start, raw, fromTs, toTs, clients, traces, picks, i, clients2, traces2, picks2, j);
      OneValueStartsAlike(start, raw, fromTs, toTs, clients, traces, picks, i, picks2[j]);
      SecondRunIsIdleIff(start, raw, fromTs, toTs, clients, traces, picks, i, clients2, traces2, picks2, j);
    } else {
      OutsideWindowUntouched(end, raw, fromTs, toTs, clients2, traces2, picks2, c);
    }
  }

  lemma ReadyAgain(start: Db, end: Db, raw: Logs, fromTs: int, toTs: int,
                   clients: seq<Client>, traces: seq<Trace>, picks: seq<int>)
    requires Ready(start, raw, fromTs, toTs) && IsWholeRun(start, end, raw, fromTs, toTs, clients, traces, picks)
    ensures Ready(end, raw, fromTs, toTs)
  {
    RunKeepsSound(start, raw, fromTs, toTs, clients, traces, picks, |traces|);
    forall c | c in Affected(raw, fromTs, toTs)
      ensures LayeredIn(end, raw, c)
    {
      assert LayeredIn(start, raw, c);
    }
  }

  /** The first run copies row pick of client c, and then holds event i with its logged values. */
  lemma FirstRunCopying(start: Db, raw: Logs, fromTs: int, toTs: int, c: Client, pick: int, i: nat)
    returns (end: Db, clients: seq<Client>, traces: seq<Trace>, picks: seq<int>, n: nat)
    requires Ready(start, raw, fromTs, toTs) && c in Affected(raw, fromTs, toTs)
    requires var from := ResetPoint(raw, c, fromTs, toTs); var es := EventsFrom(raw, c, from);
      && NeedsPlaceholder(start, c, from) && raw[c][from].change.Delete?
      && pick in HistoryOf(start, c) && i < |es| && !es[i].change.Delete?
    ensures IsWholeRun(start, end, raw, fromTs, toTs, clients, traces, picks)
    ensures n < |clients| && clients[n] == c && picks[n] == pick
    ensures var e := EventsFrom(raw, c, ResetPoint(raw, c, fromTs, toTs))[i];
      e.lsn in HistoryOf(end, c) && HistoryOf(end, c)[e.lsn].attrs == e.change.after
  {
    var from := ResetPoint(raw, c, fromTs, toTs);
    var es, a := EventsFrom(raw, c, from), HistoryOf(start, c)[pick].attrs;
    end, clients, traces, picks := WholeRunCompletes(start, raw, fromTs, toTs, map[c := pick]);
    n :| 0 <= n < |clients| && clients[n] == c;
    CopiedValues(start, raw, fromTs, toTs, clients, traces, picks, n);
    var once := Reload(Project(start, c), from, es, Some(a));
    ReloadLandsIff(Project(start, c), LogOf(raw, c), from, es, Some(a), i);
    assert HasVersion(once.history, es[i]);
    SameValueInBoth(once.history, HistoryOf(end, c), es[i].lsn);
  }

  /** A second run that copies a row of another value leaves other rows. */
  lemma SecondRunCopying(start: Db, end: Db, raw: Logs, fromTs: int, toTs: int,
                         clients: seq<Client>, traces: seq<Trace>, picks: seq<int>, n: nat, again: int) returns (end2: Db)
    requires Ready(start, raw, fromTs, toTs) && IsWholeRun(start, end, raw, fromTs, toTs, clients, traces, picks)
    requires n < |clients| && clients[n] in Affected(raw, fromTs, toTs)
    requires var c, from := clients[n], ResetPoint(raw, clients[n], fromTs, toTs);
      && NeedsPlaceholder(start, c, from) && raw[c][from].change.Delete?
      && picks[n] in HistoryOf(start, c) && again in HistoryOf(end, c)
      && Carried(HistoryOf(start, c)[picks[n]].attrs) != Carried(HistoryOf(end, c)[again].attrs)
    ensures Reloaded(end, end2, raw, fromTs, toTs)
    ensures !Similar(Project(end, clients[n]), Project(end2, clients[n]))
  {
    var c := clients[n];
    ReadyAgain(start, end, raw, fromTs, toTs, clients, traces, picks);
    var clients2, traces2, picks2;
    end2, clients2, traces2, picks2 := WholeRunCompletes(end, raw, fromTs, toTs, map[c := again]);
    var m :| 0 <= m < |clients2| && clients2[m] == c;
    FirstIsDelete(raw, c, fromTs, toTs);
    SecondRunIsIdleIff(start, raw, fromTs, toTs, clients, traces, picks, n, clients2, traces2, picks2, m);
  }

  /** Where values differ, some two runs differ. */
  lemma MaterialRunsDiffer(start: Db, raw: Logs, fromTs: int, toTs: int, c: Client) returns (end: Db, end2: Db)
    requires Ready(start, raw, fromTs, toTs) && c in Affected(raw, fromTs, toTs)
    requires !ChoiceIsImmaterial(start, raw, c, fromTs, toTs)
    ensures Reloaded(start, end, raw, fromTs, toTs) && Reloaded(end, end2, raw, fromTs, toTs)
    ensures !Similar(Project(end, c), Project(end2, c))
  {
    var from := ResetPoint(raw, c, fromTs, toTs);
    var es, h := EventsFrom(raw, c, from), HistoryOf(start, c);
    var pick :| pick in h && !EventsCarry(es, h[pick].attrs);
    var i :| 0 <= i < |es| && !es[i].change.Delete? && Carried(es[i].change.after) != Carried(h[pick].attrs);
    var clients, traces, picks, n;
    end, clients, traces, picks, n := FirstRunCopying(start, raw, fromTs, toTs, c, pick, i);
    end2 := SecondRunCopying(start, end, raw, fromTs, toTs, clients, traces, picks, n, es[i].lsn);
  }

  /** Reloading the same window twice leaves every client's rows and watermark as reloading it once,
      surrogate keys aside, in whichever order clients come and whichever rows placeholders copy, if
      and only if for each client that needs a placeholder under a leading delete the doomed rows
      and the logged inserts and updates carry one value. */
  lemma AnySecondRunIsIdleIff(start: Db, raw: Logs, fromTs: int, toTs: int)
    requires Ready(start, raw, fromTs, toTs)
    ensures (forall end, end2 | Reloaded(start, end, raw, fromTs, toTs) && Reloaded(end, end2, raw, fromTs, toTs) ::
               SameRows(end, end2))
      <==> forall c | c in Affected(raw, fromTs, toTs) :: ChoiceIsImmaterial(start, raw, c, fromTs, toTs)
  {
    if forall c | c in Affected(raw, fromTs, toTs) :: ChoiceIsImmaterial(start, raw, c, fromTs, toTs) {
      forall end, end2, c | Reloaded(start, end, raw, fromTs, toTs) && Reloaded(end, end2, raw, fromTs, toTs)
        ensures Similar(Project(end, c), Project(end2, c))
      {
        ImmaterialRunsAgree(start, end, end2, raw, fromTs, toTs, c);
      }
    } else {
      var c :| c in Affected(raw, fromTs, toTs) && !ChoiceIsImmaterial(start, raw, c, fromTs, toTs);
      var end, end2 := MaterialRunsDiffer(start, raw, fromTs, toTs, c);
    }
  }
}

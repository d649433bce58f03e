/** The rows a client's history starts from, before any event of its log: the baseline row, or the
stopgaps of a client that was never seeded.  Streaming and reloading close and reopen the highest
of them and leave them alone otherwise (sql/03_cdc_apply.sql, sql/04_backfill_reset.sql).
*/
module Beginnings {
  import opened Model
  import opened FiniteSets
  import opened Histories
  import opened ClientCdc
  import opened Lists
  import opened Streaming
  import opened Replay
  import opened ClientReload
  import opened Stopgaps
  import opened StopgapReload
  import opened ReloadAgain

  /** The rows below every logged lsn, the highest of them open. */
  function StartingRows(h: History): History {
    Reactivate(Below(h, 1))
  }

  /** Of the starting rows none but the highest is current. */
  ghost predicate OneOpenStart(h: History) {
    forall l, m | l in h && m in h && l < m < 1 :: !h[l].isCurrent
  }

  lemma LayeredHasOneOpenStart(s: ClientState, log: Log)
    requires Layered(s, log)
    ensures OneOpenStart(s.history)
  {
  }

  /** Of the starting rows only the highest may have been closed or reopened. */
  ghost predicate StartKept(h: History, g: History) {
    && Below(g, 1).Keys == Below(h, 1).Keys
    && forall l | l in Below(h, 1) ::
         g[l] == if l == Max(Below(h, 1).Keys) then h[l].(validTo := g[l].validTo, isCurrent := g[l].isCurrent) else h[l]
  }

  lemma KeptStart(h: History, g: History)
    requires StartKept(h, g)
    ensures StartingRows(g) == StartingRows(h)
  {
    if Below(h, 1) != map[] {
      forall l | l in Below(h, 1)
        ensures StartingRows(g)[l] == StartingRows(h)[l]
      {
        assert Below(g, 1)[l] == g[l];
      }
    }
  }

  lemma EndDateKeepsStart(h: History, ts: int)
    requires OneOpenStart(h)
    ensures OneOpenStart(EndDate(h, ts)) && StartKept(h, EndDate(h, ts))
  {
    forall l | l in Below(h, 1)
      ensures l != Max(Below(h, 1).Keys) ==> !h[l].isCurrent
    {
      assert Max(Below(h, 1).Keys) in Below(h, 1);
    }
  }

  lemma StepKeepsStart(s: ClientState, e: Event)
    requires OneOpenStart(s.history) && 0 < e.lsn
    ensures OneOpenStart(Step(s, e).history) && StartingRows(Step(s, e).history) == StartingRows(s.history)
  {
    var h, g, closed := s.history, Step(s, e).history, EndDate(s.history, e.commitTs);
    EndDateKeepsStart(h, e.commitTs);
    KeptStart(h, closed);
    assert Below(g, 1) == Below(if g == h then h else closed, 1);
  }

  lemma {:induction false} RunKeepsStart(s: ClientState, es: seq<Event>)
    requires OneOpenStart(s.history) && forall i | 0 <= i < |es| :: 0 < es[i].lsn
    ensures OneOpenStart(Run(s, es).history) && StartingRows(Run(s, es).history) == StartingRows(s.history)
  {
    if es != [] {
      RunKeepsStart(s, DropLast(es));
      StepKeepsStart(Run(s, DropLast(es)), Last(es));
    }
  }

  lemma ResetKeepsStart(s: ClientState, from: int)
    requires OneOpenStart(s.history) && 0 < from
    ensures OneOpenStart(Reset(s, from).history) && StartingRows(Reset(s, from).history) == StartingRows(s.history)
  {
    var h, g := s.history, Reset(s, from).history;
    var kept := Below(h, from);
    assert g.Keys == kept.Keys;
    assert Below(g, 1).Keys == Below(h, 1).Keys;
    forall l | l in Below(h, 1)
      ensures l in kept && (l != Max(Below(h, 1).Keys) ==> g[l] == h[l])
    {
      assert l in kept && Max(Below(h, 1).Keys) in kept;
    }
    KeptStart(h, g);
  }

  /** A reload leaves the rows a client started from, keys included. */
  lemma ReloadKeepsStart(s: ClientState, log: Log, from: int, es: seq<Event>, attrs: Option<Attributes>)
    requires LayeredCall(s, log, from, es, attrs)
    ensures StartingRows(Reload(s, from, es, attrs).history) == StartingRows(s.history)
  {
    forall i | 0 <= i < |es|
      ensures from <= es[i].lsn
    {
      assert es[0].lsn <= es[i].lsn;
    }
    if attrs.None? {
      LayeredHasOneOpenStart(s, log);
      ResetKeepsStart(s, from);
      RunKeepsStart(Reset(s, from), es);
    } else {
      var t := Reload(s, from, es, attrs);
      ResetPlaceholder(s, from, attrs.value);
      RunRowsAtLeast(Reset(InsertPlaceholder(s, from, attrs), from), es, from - 1);
      assert Below(t.history, 1) == map[];
      forall l | l in s.history
        ensures from <= l
      {
        assert l < from ==> l in Below(s.history, from);
      }
      assert Below(s.history, 1) == map[];
    }
  }

  /** Reset from its earliest logged event on, a client is back where it started. */
  lemma ResetIsStart(s: ClientState, log: Log, from: int)
    requires Layered(s, log) && 0 < from && forall l | l in log :: from <= l
    ensures Reset(s, from).history == StartingRows(s.history)
  {
    forall l | l in s.history && l < from
      ensures l < 1
    {
      assert 0 < l ==> l in RealRows(s.history);
    }
    assert Below(s.history, from) == Below(s.history, 1);
  }

  lemma SameContentSameStart(g: History, h: History)
    requires SameContent(g, h)
    ensures SameContent(StartingRows(g), StartingRows(h))
  {
    forall l | l in g
      ensures g[l].(key := 0) == h[l].(key := 0)
    {
    }
    assert Below(g, 1).Keys == Below(h, 1).Keys;
  }

  /** A client without versions or watermark, over given starting rows. */
  function StartingAt(rows: History): ClientState {
    ClientState(rows, None, 0)
  }

  /** From the starting rows on, a log applied once in lsn order. */
  function AppliedOnce(rows: History, es: seq<Event>): ClientState {
    Run(StartingAt(rows), es)
  }

  lemma AppliedOnceIgnoresKeys(g: History, h: History, es: seq<Event>)
    requires SameContent(g, h)
    ensures Similar(AppliedOnce(g, es), AppliedOnce(h, es))
  {
    RunIgnoresKeys(StartingAt(g), StartingAt(h), es);
  }

  /** Replayed from the earliest logged event on, a client's rows are those of one application of
      the log to its starting rows; and so is the watermark, unless there is nothing to show for
      the one the reset left. */
  lemma ReplayFromStart(s: ClientState, log: Log, from: int, es: seq<Event>)
    requires LayeredCall(s, log, from, es, None) && forall l | l in log :: from <= l
    ensures var once, again := AppliedOnce(StartingRows(s.history), es), Run(Reset(s, from), es);
      && SameContent(again.history, once.history)
      && (again.watermark == once.watermark <==> once.history != map[] || s.watermark == None)
  {
    var p, q := Reset(s, from), StartingAt(StartingRows(s.history));
    ResetIsStart(s, log, from);
    forall i | 0 <= i < |es|
      ensures Floor(p.watermark) < es[i].lsn && Floor(q.watermark) < es[i].lsn
    {
      assert es[0].lsn <= es[i].lsn;
    }
    ReplaySameRows(p, q, es);
    assert AscendsAbove(es, Floor(p.watermark)) && AscendsAbove(es, Floor(q.watermark));
    WatermarkAfter(p, es);
    WatermarkAfter(q, es);
    LandsNothingIff(q, es);
  }

  /** Above the watermark a replay shows nothing if and only if it is all deletes onto no rows. */
  lemma LandsNothingIff(q: ClientState, es: seq<Event>)
    requires AscendsAbove(es, Floor(q.watermark)) && es != [] && 0 <= Floor(q.watermark)
    ensures Run(q, es).history == map[] <==> LeadingDeletes(q.history, es) == |es|
  {
    ReplayProgress(q, es, |es|);
    LeadingDeletesSpan(q.history, es);
    assert es[..|es|] == es;
  }

  /** A reload leaves the rows that replaying its events onto the reset client gives, and the
      watermark, if and only if no placeholder meets a leading delete. */
  lemma ReloadsInOrderIff(s: ClientState, log: Log, from: int, es: seq<Event>, attrs: Option<Attributes>)
    requires LayeredCall(s, log, from, es, attrs)
    ensures var again := Run(Reset(s, from), es);
      && (SameContent(Reload(s, from, es, attrs).history, again.history) <==> attrs == None || !es[0].change.Delete?)
      && (SameContent(Reload(s, from, es, attrs).history, again.history) ==> Similar(Reload(s, from, es, attrs), again))
  {
    if attrs.Some? {
      NoSurvivorNoStopgap(s.history, from);
      CallWithoutStopgaps(s, log, from, es, attrs);
      PlaceholderShowsIff(s, log, from, es, attrs.value);
      if !es[0].change.Delete? {
        PlaceholderLeavesNoTrace(s, log, from, es, attrs.value);
      }
    }
  }

  /** The same from the earliest logged event on, against the log applied once. */
  lemma ReloadAppliesOnceIff(s: ClientState, log: Log, from: int, es: seq<Event>, attrs: Option<Attributes>)
    requires LayeredCall(s, log, from, es, attrs) && forall l | l in log :: from <= l
    ensures var once, t := AppliedOnce(StartingRows(s.history), es), Reload(s, from, es, attrs);
      && (SameContent(t.history, once.history) <==> attrs == None || !es[0].change.Delete?)
      && (Similar(t, once) <==>
            SameContent(t.history, once.history) && (once.history != map[] || s.watermark == None))
  {
    var once, again, t := AppliedOnce(StartingRows(s.history), es), Run(Reset(s, from), es), Reload(s, from, es, attrs);
    ReloadsInOrderIff(s, log, from, es, attrs);
    ReplayFromStart(s, log, from, es);
    SameContentThrough(t.history, again.history, once.history);
  }

  lemma SameContentThrough(f: History, g: History, h: History)
    requires SameContent(g, h)
    ensures SameContent(f, g) <==> SameContent(f, h)
    ensures SameContent(g, f) <==> SameContent(h, f)
  {
    forall l | l in g
      ensures g[l].(key := 0) == h[l].(key := 0)
    {
    }
  }
}

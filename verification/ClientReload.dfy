/** A historical reload seen from one client: placeholder, reset, replay in lsn order,
placeholder removal (reload.py). */
module ClientReload {
  import opened Model
  import opened FiniteSets
  import opened Histories
  import opened ClientCdc
  import opened Lists
  import opened Rewind
  import opened Streaming
  import opened Replay

  /** Equal rows, surrogate keys aside. */
  ghost predicate SameContent(g: History, h: History) {
    && g.Keys == h.Keys
    && forall l | l in g :: g[l].(key := 0) == h[l].(key := 0)
  }

  ghost predicate Similar(a: ClientState, b: ClientState) {
    SameContent(a.history, b.history) && a.watermark == b.watermark
  }

  /** The apply function never looks at a surrogate key. */
  lemma StepIgnoresKeys(a: ClientState, b: ClientState, e: Event)
    requires Similar(a, b)
    ensures Similar(Step(a, e), Step(b, e)) && Judge(a, e) == Judge(b, e)
  {
    assert a.history == map[] <==> b.history == map[] by {
      assert a.history.Keys == b.history.Keys;
    }
    if Judge(a, e) == Applied {
      assert EndDate(a.history, e.commitTs).Keys == EndDate(b.history, e.commitTs).Keys;
      assert SameContent(EndDate(a.history, e.commitTs), EndDate(b.history, e.commitTs));
      AppendedIgnoresKeys(EndDate(a.history, e.commitTs), EndDate(b.history, e.commitTs), e.change);
    }
  }

  lemma AppendedIgnoresKeys(g: History, h: History, change: Change)
    requires SameContent(g, h)
    ensures AppendedAttributes(g, change) == AppendedAttributes(h, change)
  {
  }

  lemma {:induction false} RunIgnoresKeys(a: ClientState, b: ClientState, es: seq<Event>)
    requires Similar(a, b)
    ensures Similar(Run(a, es), Run(b, es))
  {
    if es != [] {
      RunIgnoresKeys(a, b, DropLast(es));
      StepIgnoresKeys(Run(a, DropLast(es)), Run(b, DropLast(es)), Last(es));
    }
  }

  /** Replaying above both watermarks, only the rows matter. */
  lemma ReplayIgnoresWatermark(a: ClientState, b: ClientState, es: seq<Event>)
    requires SameContent(a.history, b.history)
    requires es != [] && (a.history != map[] || !es[0].change.Delete?)
    requires Floor(a.watermark) < es[0].lsn && Floor(b.watermark) < es[0].lsn
    ensures Similar(Run(a, es), Run(b, es))
  {
    RunFirst(a, es);
    RunFirst(b, es);
    assert a.history == map[] <==> b.history == map[] by {
      assert a.history.Keys == b.history.Keys;
    }
    var a0 := a.(watermark := b.watermark);
    StepIgnoresKeys(a0, b, es[0]);
    assert Step(a, es[0]) == Step(a0, es[0]);
    RunIgnoresKeys(Step(a, es[0]), Step(b, es[0]), es[1..]);
  }

  /** The throwaway row facts are parked on while their own versions are gone: full window,
      not current, just below the reset point. */
  function InsertPlaceholder(s: ClientState, from: int, attrs: Option<Attributes>): ClientState {
    match attrs
    case None => s
    case Some(a) =>
      ClientState(
        s.history[from - 1 := Version(s.nextKey, a, BEGINNING_OF_TIME, END_OF_TIME, false, false)],
        s.watermark,
        s.nextKey + 1)
  }

  function RemovePlaceholder(s: ClientState, from: int, attrs: Option<Attributes>): ClientState {
    if attrs.None? then s else s.(history := s.history - {from - 1})
  }

  /** The reload of one client up to the moment facts are looked up again. */
  function Rebuild(s: ClientState, from: int, es: seq<Event>, attrs: Option<Attributes>): ClientState {
    Run(Reset(InsertPlaceholder(s, from, attrs), from), es)
  }

  /** The reload of one client; attrs are the placeholder's values when one is needed. */
  function Reload(s: ClientState, from: int, es: seq<Event>, attrs: Option<Attributes>): ClientState {
    RemovePlaceholder(Rebuild(s, from, es, attrs), from, attrs)
  }

  /** A reload as the driver issues it: the events are the client's whole log from the
      reset point on, and a placeholder is made only where nothing survives below. */
  ghost predicate ReloadCall(s: ClientState, log: Log, from: int, es: seq<Event>, attrs: Option<Attributes>) {
    && LogOk(log) && Settled(s, log) && AllLogged(log, es) && AscendingEvents(es)
    && es != [] && es[0].lsn == from
    && (attrs.Some? ==> Below(s.history, from) == map[])
  }

  /** g is h with one more row x underneath that nothing will touch again. */
  ghost predicate Shadowed(g: History, h: History, x: int) {
    && g.Keys == h.Keys + {x} && h != map[]
    && (forall l | l in h :: x < l)
    && !g[x].isCurrent
    && forall l | l in h :: g[l].(key := 0) == h[l].(key := 0)
  }

  lemma ShadowedTop(g: History, h: History, x: int)
    requires Shadowed(g, h, x)
    ensures g != map[] && Max(g.Keys) == Max(h.Keys)
  {
  }

  lemma ShadowedEndDate(g: History, h: History, x: int, ts: int)
    requires Shadowed(g, h, x)
    ensures Shadowed(EndDate(g, ts), EndDate(h, ts), x) && EndDate(g, ts)[x] == g[x]
  {
  }

  lemma ShadowedAppend(g: History, h: History, x: int, lsn: int, v: Version, w: Version)
    requires Shadowed(g, h, x) && x < lsn && v.(key := 0) == w.(key := 0)
    ensures Shadowed(Append(g, lsn, v), Append(h, lsn, w), x) && Append(g, lsn, v)[x] == g[x]
  {
  }

  /** Two states in step, one with the extra row underneath. */
  ghost predicate InStep(a: ClientState, b: ClientState, x: int) {
    Shadowed(a.history, b.history, x) && a.watermark == b.watermark
  }

  lemma StepKeepsInStep(a: ClientState, b: ClientState, x: int, e: Event)
    requires InStep(a, b, x) && x < e.lsn
    ensures InStep(Step(a, e), Step(b, e), x) && Step(a, e).history[x] == a.history[x]
  {
    if e.lsn > Floor(a.watermark) {
      var g, h := EndDate(a.history, e.commitTs), EndDate(b.history, e.commitTs);
      ShadowedEndDate(a.history, b.history, x, e.commitTs);
      ShadowedTop(g, h, x);
      assert g[Max(g.Keys)].(key := 0).attrs == h[Max(h.Keys)].(key := 0).attrs;
      var attrs := AppendedAttributes(g, e.change).value;
      ShadowedAppend(g, h, x, e.lsn, Opened(a.nextKey, attrs, e), Opened(b.nextKey, attrs, e));
    }
  }

  lemma {:induction false} RunKeepsInStep(a: ClientState, b: ClientState, x: int, es: seq<Event>)
    requires InStep(a, b, x) && forall i | 0 <= i < |es| :: x < es[i].lsn
    ensures InStep(Run(a, es), Run(b, es), x) && Run(a, es).history[x] == a.history[x]
  {
    if es != [] {
      RunKeepsInStep(a, b, x, DropLast(es));
      StepKeepsInStep(Run(a, DropLast(es)), Run(b, DropLast(es)), x, Last(es));
    }
  }

  /** The reset client with its placeholder reopened. */
  lemma ResetPlaceholder(s: ClientState, from: int, a: Attributes)
    requires Below(s.history, from) == map[]
    ensures Reset(InsertPlaceholder(s, from, Some(a)), from).history ==
      map[from - 1 := Version(s.nextKey, a, BEGINNING_OF_TIME, END_OF_TIME, true, false)]
    ensures Reset(s, from).history == map[]
  {
  }

  /** The first replayed event that is not a delete closes the placeholder and opens the
      client's history. */
  lemma FirstEventOnPlaceholder(s: ClientState, from: int, a: Attributes, e: Event)
    requires Below(s.history, from) == map[] && e.lsn == from && !e.change.Delete? && 0 < from
    ensures var p := Reset(InsertPlaceholder(s, from, Some(a)), from);
      InStep(Step(p, e), Step(Reset(s, from), e), from - 1)
      && Step(p, e).history[from - 1].validTo == e.commitTs
  {
  }

  /** Unless the client's log from the reset point on starts with a delete, nobody can tell
      afterwards that a placeholder was there. */
  lemma PlaceholderLeavesNoTrace(s: ClientState, log: Log, from: int, es: seq<Event>, a: Attributes)
    requires ReloadCall(s, log, from, es, Some(a)) && !es[0].change.Delete?
    ensures InStep(Rebuild(s, from, es, Some(a)), Rebuild(s, from, es, None), from - 1)
    ensures Rebuild(s, from, es, Some(a)).history[from - 1].validTo == es[0].commitTs
    ensures Similar(Reload(s, from, es, Some(a)), Reload(s, from, es, None))
  {
    var p, q := Reset(InsertPlaceholder(s, from, Some(a)), from), Reset(s, from);
    assert Logged(log, es[0]);
    RunFirst(p, es);
    RunFirst(q, es);
    FirstEventOnPlaceholder(s, from, a, es[0]);
    RunKeepsInStep(Step(p, es[0]), Step(q, es[0]), from - 1, es[1..]);
    ShadowRemoved(Rebuild(s, from, es, Some(a)).history, Rebuild(s, from, es, None).history, from - 1);
  }

  lemma ShadowRemoved(g: History, h: History, x: int)
    requires Shadowed(g, h, x)
    ensures SameContent(g - {x}, h)
  {
  }

  function LogFrom(log: Log, from: int): Log {
    map l | l in log && from <= l :: log[l]
  }

  /** The client's log with an entry for the placeholder, as if it came from an event. */
  function ReloadLog(log: Log, from: int, attrs: Option<Attributes>): Log {
    match attrs
    case None => log
    case Some(a) =>
      if from == 1 then LogFrom(log, from)
      else LogFrom(log, from)[from - 1 := Event("", from - 1, BEGINNING_OF_TIME, Insert(a))]
  }

  lemma ReloadLogOk(log: Log, from: int, attrs: Option<Attributes>)
    requires LogOk(log) && 0 < from
    ensures LogOk(ReloadLog(log, from, attrs))
  {
  }

  lemma SettledTopIsOpen(s: ClientState, log: Log)
    requires Settled(s, log)
    ensures OnlyTopOpen(s.history)
  {
    forall l | l in s.history
      ensures if l == Max(s.history.Keys) then s.history[l].isCurrent && s.history[l].validTo == END_OF_TIME
              else !s.history[l].isCurrent
    {
      TopHasNoneAfter(s.history, l);
      assert Linked(s.history, l);
    }
  }

  /** Right after the reset the history is a chain again, placeholder or not. */
  lemma ResetIsReplayable(s: ClientState, log: Log, from: int, es: seq<Event>, attrs: Option<Attributes>)
    requires ReloadCall(s, log, from, es, attrs)
    requires attrs.Some? ==> s.watermark.Some?
    ensures var p := Reset(InsertPlaceholder(s, from, attrs), from);
      Settled(p, ReloadLog(log, from, attrs)) && AllLogged(ReloadLog(log, from, attrs), es) && Replayable(p, es)
  {
    var p := Reset(InsertPlaceholder(s, from, attrs), from);
    assert Logged(log, es[0]);
    ReloadLogOk(log, from, attrs);
    ResetIsSettled(s, log, from, attrs);
    SettledTopIsOpen(p, ReloadLog(log, from, attrs));
    forall i | 0 <= i < |es|
      ensures Floor(p.watermark) < es[i].lsn && Logged(ReloadLog(log, from, attrs), es[i])
    {
      assert Logged(log, es[i]);
      assert es[0].lsn <= es[i].lsn;
    }
  }

  lemma ResetIsSettled(s: ClientState, log: Log, from: int, attrs: Option<Attributes>)
    requires LogOk(log) && Settled(s, log) && 0 < from
    requires attrs.Some? ==> Below(s.history, from) == map[] && s.watermark.Some?
    ensures Settled(Reset(InsertPlaceholder(s, from, attrs), from), ReloadLog(log, from, attrs))
  {
    var p := Reset(InsertPlaceholder(s, from, attrs), from);
    if attrs.None? {
      ResetKeepsSettled(s, log, from);
    } else {
      ResetPlaceholder(s, from, attrs.value);
      assert After(p.history, from - 1) == {};
      assert Linked(p.history, from - 1);
    }
  }

  lemma RebuildKeepsSettled(s: ClientState, log: Log, from: int, es: seq<Event>, attrs: Option<Attributes>)
    requires ReloadCall(s, log, from, es, attrs)
    requires attrs.Some? ==> s.watermark.Some?
    ensures Settled(Rebuild(s, from, es, attrs), ReloadLog(log, from, attrs))
  {
    ResetIsReplayable(s, log, from, es, attrs);
    RunKeepsSettled(Reset(InsertPlaceholder(s, from, attrs), from), ReloadLog(log, from, attrs), es);
  }

  lemma {:induction false} RunKeepsRows(s: ClientState, es: seq<Event>)
    ensures s.history.Keys <= Run(s, es).history.Keys
  {
    if es != [] {
      RunKeepsRows(s, DropLast(es));
      assert EndDate(Run(s, DropLast(es)).history, Last(es).commitTs).Keys == Run(s, DropLast(es)).history.Keys;
    }
  }

  /** After a reload the client's history is one chain over its log again. */
  lemma ReloadKeepsSettled(s: ClientState, log: Log, from: int, es: seq<Event>, attrs: Option<Attributes>)
    requires ReloadCall(s, log, from, es, attrs)
    requires attrs.Some? ==> s.watermark.Some?
    ensures Settled(Reload(s, from, es, attrs), log)
  {
    RebuildKeepsSettled(s, log, from, es, attrs);
    if attrs.Some? {
      assert Logged(log, es[0]);
      var r := Rebuild(s, from, es, attrs);
      PlaceholderIsFirst(s, log, from, es, attrs.value);
      WithoutFirstRow(r.history, from - 1);
      forall l | l in r.history - {from - 1}
        ensures l in log && r.history[l].validFrom == StartOf(log, l)
      {
      }
    }
  }

  lemma PlaceholderIsFirst(s: ClientState, log: Log, from: int, es: seq<Event>, a: Attributes)
    requires ReloadCall(s, log, from, es, Some(a)) && s.watermark.Some?
    ensures from - 1 in Rebuild(s, from, es, Some(a)).history
    ensures forall l | l in Rebuild(s, from, es, Some(a)).history :: from - 1 <= l
  {
    ResetPlaceholder(s, from, a);
    RunKeepsRows(Reset(InsertPlaceholder(s, from, Some(a)), from), es);
    forall i | 0 <= i < |es|
      ensures from - 1 <= es[i].lsn
    {
      assert es[0].lsn <= es[i].lsn;
    }
    RunRowsAtLeast(Reset(InsertPlaceholder(s, from, Some(a)), from), es, from - 1);
  }

  lemma {:induction false} RunRowsAtLeast(s: ClientState, es: seq<Event>, bound: int)
    requires forall l | l in s.history :: bound <= l
    requires forall i | 0 <= i < |es| :: bound <= es[i].lsn
    ensures forall l | l in Run(s, es).history :: bound <= l
  {
    if es != [] {
      RunRowsAtLeast(s, DropLast(es), bound);
    }
  }

  lemma ReplayedKeys(s: ClientState, es: seq<Event>)
    requires Replayable(s, es)
    ensures Run(s, es).history.Keys == s.history.Keys + LandedLsns(s.history, es, |es|)
  {
    ReplayMatchesLog(s, es, |es|);
    assert es[..|es|] == es;
  }

  /** With no version below the reset point, a placeholder shows in the rebuilt rows if and
      only if the log from there on starts with a delete: that delete then copies it. */
  lemma PlaceholderShowsIff(s: ClientState, log: Log, from: int, es: seq<Event>, a: Attributes)
    requires ReloadCall(s, log, from, es, Some(a)) && s.watermark.Some?
    ensures SameContent(Reload(s, from, es, Some(a)).history, Reload(s, from, es, None).history)
       <==> !es[0].change.Delete?
  {
    if !es[0].change.Delete? {
      PlaceholderLeavesNoTrace(s, log, from, es, a);
    } else {
      var q := Reset(s, from);
      assert q.history == map[] by {
        ResetPlaceholder(s, from, a);
      }
      assert ReloadCall(s, log, from, es, None);
      ResetIsReplayable(s, log, from, es, None);
      ReplayedKeys(q, es);
      LeadingDeletesSpan(q.history, es);
      assert from !in Reload(s, from, es, None).history;
      var p := Reset(InsertPlaceholder(s, from, Some(a)), from);
      ResetPlaceholder(s, from, a);
      assert from - 1 in p.history;
      ResetIsReplayable(s, log, from, es, Some(a));
      ReplayedKeys(p, es);
      LeadingDeletesSpan(p.history, es);
      assert from in LandedLsns(p.history, es, |es|) by {
        assert es[0].lsn == from;
      }
      assert from in Reload(s, from, es, Some(a)).history;
    }
  }

  /** Replay onto equal rows gives equal rows, whatever the two rolled-back watermarks. */
  lemma {:induction false} ReplaySameRows(a: ClientState, b: ClientState, es: seq<Event>)
    requires SameContent(a.history, b.history) && AscendingEvents(es)
    requires forall i | 0 <= i < |es| :: Floor(a.watermark) < es[i].lsn && Floor(b.watermark) < es[i].lsn
    ensures SameContent(Run(a, es).history, Run(b, es).history)
  {
    if es != [] {
      if a.history != map[] || !es[0].change.Delete? {
        ReplayIgnoresWatermark(a, b, es);
      } else {
        assert b.history.Keys == {};
        RunFirst(a, es);
        RunFirst(b, es);
        ReplaySameRows(a, b, es[1..]);
      }
    }
  }

  /** Convergence.  However a client's events were streamed - any order, any repetition, any
      losses to the watermark - reloading from its earliest event leaves the rows that
      applying its log once, in ascending lsn order, to the starting rows gives; unless there
      was no starting row, a placeholder was needed and the log starts with a delete. */
  lemma Convergence(s: ClientState, log: Log, arrivals: seq<Event>, from: int, es: seq<Event>, attrs: Option<Attributes>)
    requires LogOk(log) && Settled(s, log) && RowsBelow(s.history, from) && Floor(s.watermark) < from
    requires AllLogged(log, arrivals) && forall i | 0 <= i < |arrivals| :: from <= arrivals[i].lsn
    requires ReloadCall(Run(s, arrivals), log, from, es, attrs)
    requires attrs.Some? ==> Run(s, arrivals).watermark.Some?
    ensures SameContent(Reload(Run(s, arrivals), from, es, attrs).history, Run(s, es).history)
       <==> (attrs == None || !es[0].change.Delete?)
    ensures s.history != map[] || !es[0].change.Delete? ==>
      Similar(Reload(Run(s, arrivals), from, es, attrs), Run(s, es))
  {
    var streamed := Run(s, arrivals);
    var x, y := Reload(streamed, from, es, attrs), Reload(streamed, from, es, None);
    ResetUndoesRun(s, log, arrivals, from);
    assert Logged(log, es[0]);
    forall i | 0 <= i < |es|
      ensures Floor(s.watermark) < es[i].lsn && Floor(Reset(streamed, from).watermark) < es[i].lsn
    {
      assert es[0].lsn <= es[i].lsn;
    }
    ReplaySameRows(Reset(streamed, from), s, es);
    assert SameContent(y.history, Run(s, es).history);
    if attrs.Some? {
      ResetPlaceholder(streamed, from, attrs.value);
      PlaceholderShowsIff(streamed, log, from, es, attrs.value);
    }
    if s.history != map[] || !es[0].change.Delete? {
      ReplayIgnoresWatermark(Reset(streamed, from), s, es);
      if attrs.Some? {
        PlaceholderLeavesNoTrace(streamed, log, from, es, attrs.value);
      }
    }
  }

  lemma ResetIgnoresKeys(a: ClientState, b: ClientState, from: int)
    requires SameContent(a.history, b.history)
    ensures SameContent(Reset(a, from).history, Reset(b, from).history)
  {
  }

  lemma SurvivorsStay(s: ClientState, from: int)
    ensures Reset(s, from).history.Keys == Below(s.history, from).Keys
    ensures RowsBelow(Reset(s, from).history, from)
  {
  }

  lemma ReplayedRowsIgnoreKeys(g: History, h: History, es: seq<Event>)
    requires SameContent(g, h) && ReplayedRows(map[], g, es, |es|)
    ensures ReplayedRows(map[], h, es, |es|)
  {
    forall i | LeadingDeletes(map[], es) <= i < |es|
      ensures Landed(map[], h, es, i)
    {
      assert Landed(map[], g, es, i);
      assert g[es[i].lsn].(key := 0) == h[es[i].lsn].(key := 0);
      if i > 0 && es[i - 1].lsn in g {
        assert g[es[i - 1].lsn].(key := 0) == h[es[i - 1].lsn].(key := 0);
      }
    }
  }

  /** A reset removes the tail and rewrites the window and the flag of one row. */
  ghost predicate ResetRow(h: History, g: History, l: int)
    requires l in h && l in g
  {
    && g[l] == h[l].(validTo := g[l].validTo, isCurrent := g[l].isCurrent)
    && (l != Max(g.Keys) ==> g[l] == h[l])
  }

  lemma ResetTouchesOneRow(s: ClientState, from: int, l: int)
    ensures l in Reset(s, from).history <==> l in s.history && l < from
    ensures l in Reset(s, from).history ==> ResetRow(s.history, Reset(s, from).history, l)
  {
  }
}

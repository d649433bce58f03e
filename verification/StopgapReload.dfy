/** A reload of a client that may still have stopgap rows (reload.py, sql/04_backfill_reset.sql).
Where no real row survives below the reset point, the reset reopens the highest stopgap and the
first replayed event closes it again, at its own commit time.
*/
module StopgapReload {
  import opened Model
  import opened FiniteSets
  import opened Histories
  import opened ClientCdc
  import opened Rewind
  import opened Streaming
  import opened Replay
  import opened ClientReload
  import opened Stopgaps

  /** A reload as the driver issues it, of any client. */
  ghost predicate LayeredCall(s: ClientState, log: Log, from: int, es: seq<Event>, attrs: Option<Attributes>) {
    && LogOk(log) && Layered(s, log) && AllLogged(log, es) && AscendingEvents(es)
    && es != [] && es[0].lsn == from && 0 < from
    && (attrs.Some? ==> Below(s.history, from) == map[] && s.watermark.Some?)
  }

  lemma CallWithoutStopgaps(s: ClientState, log: Log, from: int, es: seq<Event>, attrs: Option<Attributes>)
    requires LayeredCall(s, log, from, es, attrs) && NoStopgap(s.history)
    ensures ReloadCall(s, log, from, es, attrs)
  {
    SettledIsLayered(s, log);
  }

  lemma NoSurvivorNoStopgap(h: History, from: int)
    requires Below(h, from) == map[] && 0 < from
    ensures NoStopgap(h)
  {
    forall l | l in h
      ensures 0 <= l
    {
      assert l < from ==> l in Below(h, from);
    }
  }

  /** A real row survives a reset at from. */
  predicate RealSurvivor(h: History, from: int) {
    Below(RealRows(h), from) != map[]
  }

  /** A reset above a real row leaves the stopgaps alone. */
  lemma ResetOverRealRows(s: ClientState, log: Log, from: int)
    requires Layered(s, log) && 0 < from && RealSurvivor(s.history, from)
    ensures Strip(Reset(s, from)) == Reset(Strip(s), from)
    ensures SameStopgaps(s.history, Reset(s, from).history) && Layered(Reset(s, from), log)
  {
    ResetSeesRealRows(s.history, from);
    assert Strip(Reset(s, from)) == Reset(Strip(s), from);
    ResetKeepsSettled(Strip(s), log, from);
    LayeredAgain(s, log, Reset(s, from));
  }

  lemma ResetSeesRealRows(h: History, from: int)
    requires 0 < from && RealSurvivor(h, from)
    ensures RealRows(Reactivate(Below(h, from))) == Reactivate(Below(RealRows(h), from))
    ensures SameStopgaps(h, Reactivate(Below(h, from))) && (0 in h <==> 0 in Reactivate(Below(h, from)))
  {
    var kept := Below(h, from);
    assert RealRows(kept) == Below(RealRows(h), from);
    RealTop(kept);
    var m := Max(kept.Keys);
    assert m in RealRows(kept);
  }

  lemma ResetOverRealRowsKeepsFirst(s: ClientState, log: Log, from: int)
    requires Layered(s, log) && 0 < from && RealSurvivor(s.history, from)
    ensures RealRows(s.history) != map[] && RealRows(Reset(s, from).history) != map[]
    ensures FirstStart(Reset(s, from).history) == FirstStart(s.history)
  {
    var rows, kept := RealRows(s.history), Below(RealRows(s.history), from);
    FirstOfKept(rows, from);
    ResetSeesRealRows(s.history, from);
    assert RealRows(Reset(s, from).history).Keys == kept.Keys;
    assert Min(kept.Keys) in kept;
  }

  lemma FirstOfKept(rows: History, from: int)
    requires Below(rows, from) != map[]
    ensures rows != map[] && Min(rows.Keys) == Min(Below(rows, from).Keys)
  {
    var m := Min(Below(rows, from).Keys);
    assert m in Below(rows, from);
    forall l | l in rows
      ensures m <= l
    {
      assert l < from ==> l in Below(rows, from);
    }
  }

  /** A reset that leaves no real row leaves the stopgaps, the highest of them reopened. */
  lemma ResetReopensStopgap(s: ClientState, from: int)
    requires 0 < from && !RealSurvivor(s.history, from)
    ensures Below(s.history, from) == StopgapRows(s.history)
    ensures Reset(s, from).history == Reactivate(StopgapRows(s.history))
  {
    forall l | l in s.history && l < from
      ensures l < 0
    {
      assert 0 <= l ==> l in Below(RealRows(s.history), from);
    }
    assert Below(s.history, from) == StopgapRows(s.history);
  }

  /** The stopgaps once the reopened one has been closed again. */
  function ClosedAt(g: History, ts: int): History
    requires g != map[]
  {
    g[Max(g.Keys) := g[Max(g.Keys)].(validTo := ts)]
  }

  lemma FirstEventRows(s: ClientState, log: Log, from: int, e: Event)
    requires Layered(s, log) && e.lsn == from && 0 < from
    requires !RealSurvivor(s.history, from) && StopgapRows(s.history) != map[]
    ensures var t, attrs := Step(Reset(s, from), e), AppendedAttributes(ClosedAt(StopgapRows(s.history), e.commitTs), e.change);
      attrs.Some? && t == ClientState(
        ClosedAt(StopgapRows(s.history), e.commitTs)[from := Opened(s.nextKey, attrs.value, e)], Some(from), s.nextKey + 1)
  {
    var g, p := StopgapRows(s.history), Reset(s, from);
    ResetReopensStopgap(s, from);
    var closed := EndDate(p.history, e.commitTs);
    forall l | l in g
      ensures closed[l] == ClosedAt(g, e.commitTs)[l]
    {
      assert s.history[l] == g[l] && !g[l].isCurrent;
    }
    assert closed == ClosedAt(g, e.commitTs);
    assert Max(g.Keys) in closed;
  }

  /** The client after the first event of such a replay. */
  lemma FirstEventClosesStopgap(s: ClientState, log: Log, from: int, e: Event)
    requires LogOk(log) && Layered(s, log) && Logged(log, e) && e.lsn == from && 0 < from
    requires !RealSurvivor(s.history, from) && StopgapRows(s.history) != map[]
    ensures var t := Step(Reset(s, from), e);
      && StopgapRows(t.history) == ClosedAt(StopgapRows(s.history), e.commitTs)
      && RealRows(t.history).Keys == {from} && t.history[from].validFrom == e.commitTs
      && t.watermark == Some(from) && Layered(t, log)
  {
    var g, t := ClosedAt(StopgapRows(s.history), e.commitTs), Step(Reset(s, from), e);
    FirstEventRows(s, log, from, e);
    ClosedRows(s, log, e.commitTs);
    OneRealRow(t, log, g, e);
  }

  /** A client with one real row, just opened, over stopgaps g. */
  lemma OneRealRow(t: ClientState, log: Log, g: History, e: Event)
    requires LogOk(log) && Logged(log, e) && t.watermark == Some(e.lsn) && 0 < e.lsn
    requires e.lsn in t.history && t.history == g[e.lsn := t.history[e.lsn]] && t.history[e.lsn].key < t.nextKey
    requires t.history[e.lsn].validFrom == e.commitTs && t.history[e.lsn].validTo == END_OF_TIME
    requires t.history[e.lsn].isCurrent
    requires forall l | l in g ::
      l < 0 && !g[l].isCurrent && g[l].key < t.nextKey && BEGINNING_OF_TIME <= g[l].validFrom < END_OF_TIME
    ensures StopgapRows(t.history) == g && RealRows(t.history).Keys == {e.lsn} && Layered(t, log)
  {
    assert StopgapRows(t.history) == g;
    assert RealRows(t.history) == map[e.lsn := t.history[e.lsn]];
    FirstRealRowIsSettled(Strip(t), log, e);
  }

  lemma ClosedRows(s: ClientState, log: Log, ts: int)
    requires Layered(s, log) && StopgapRows(s.history) != map[]
    ensures var g := ClosedAt(StopgapRows(s.history), ts);
      forall l | l in g ::
        && l < 0 && !g[l].isCurrent && g[l].key < s.nextKey
        && BEGINNING_OF_TIME <= g[l].validFrom < END_OF_TIME
  {
    var g := StopgapRows(s.history);
    forall l | l in ClosedAt(g, ts)
      ensures l in g && l in s.history && ClosedAt(g, ts)[l] == s.history[l].(validTo := ClosedAt(g, ts)[l].validTo)
    {
    }
  }

  /** What a whole reload leaves of the stopgaps. */
  lemma ReloadOverStopgaps(s: ClientState, log: Log, from: int, es: seq<Event>)
    requires LayeredCall(s, log, from, es, None)
    requires !RealSurvivor(s.history, from) && StopgapRows(s.history) != map[]
    ensures var t := Reload(s, from, es, None);
      && Layered(t, log) && StopgapRows(t.history) == ClosedAt(StopgapRows(s.history), es[0].commitTs)
      && RealRows(t.history) != map[] && FirstStart(t.history) == es[0].commitTs
  {
    var p := Reset(s, from);
    var one := Step(p, es[0]);
    assert Logged(log, es[0]);
    RunFirst(p, es);
    FirstEventClosesStopgap(s, log, from, es[0]);
    assert AllLogged(log, es[1..]);
    RunKeepsLayered(one, log, es[1..]);
    RunKeepsFirst(one, log, es[1..]);
    assert Min({from}) == from;
    SameStopgapsSameEnds(one.history, Run(one, es[1..]).history, 0);
  }

  /** What a whole reload leaves of the stopgaps when a real row survives: all of it. */
  lemma ReloadOverRealRows(s: ClientState, log: Log, from: int, es: seq<Event>)
    requires LayeredCall(s, log, from, es, None) && RealSurvivor(s.history, from)
    ensures var t := Reload(s, from, es, None);
      && Layered(t, log) && SameStopgaps(s.history, t.history)
      && RealRows(s.history) != map[] && RealRows(t.history) != map[]
      && FirstStart(t.history) == FirstStart(s.history)
  {
    var p := Reset(s, from);
    ResetOverRealRows(s, log, from);
    ResetOverRealRowsKeepsFirst(s, log, from);
    RunKeepsLayered(p, log, es);
    RunKeepsFirst(p, log, es);
    SameStopgapsTrans(s.history, p.history, Run(p, es).history);
  }

  lemma SameStopgapsTrans(f: History, g: History, h: History)
    requires SameStopgaps(f, g) && SameStopgaps(g, h)
    ensures SameStopgaps(f, h)
  {
    forall l | l < 0
      ensures (l in f <==> l in h) && (l in f && l in h ==> f[l] == h[l])
    {
      assert l in f <==> l in g;
    }
  }

  /** A reload keeps the invariant of any client. */
  lemma ReloadKeepsLayered(s: ClientState, log: Log, from: int, es: seq<Event>, attrs: Option<Attributes>)
    requires LayeredCall(s, log, from, es, attrs)
    ensures Layered(Reload(s, from, es, attrs), log)
  {
    if Below(s.history, from) == map[] {
      NoSurvivorNoStopgap(s.history, from);
      CallWithoutStopgaps(s, log, from, es, attrs);
      ReloadKeepsSettled(s, log, from, es, attrs);
      SettledIsLayered(Reload(s, from, es, attrs), log);
    } else if RealSurvivor(s.history, from) {
      ReloadOverRealRows(s, log, from, es);
    } else {
      ResetReopensStopgap(s, from);
      ReloadOverStopgaps(s, log, from, es);
    }
  }

  /** The moment before facts are looked up again. */
  lemma RebuildKeepsLayered(s: ClientState, log: Log, from: int, es: seq<Event>, attrs: Option<Attributes>)
    requires LayeredCall(s, log, from, es, attrs)
    ensures Layered(Rebuild(s, from, es, attrs), ReloadLog(log, from, attrs))
  {
    if attrs.Some? {
      NoSurvivorNoStopgap(s.history, from);
      CallWithoutStopgaps(s, log, from, es, attrs);
      RebuildKeepsSettled(s, log, from, es, attrs);
      SettledIsLayered(Rebuild(s, from, es, attrs), ReloadLog(log, from, attrs));
    } else {
      ReloadKeepsLayered(s, log, from, es, attrs);
    }
  }

  /** Row x stretched or shrunk to end at ts clears the others if and only if each of them ends
      before it starts, starts after it ends, or it is empty. */
  lemma StretchedDisjointIff(g: History, x: int, v: Version)
    requires x in g && v.validFrom == g[x].validFrom
    ensures Disjoint(g[x := v]) <==>
      Disjoint(g - {x})
      && forall l | l in g && l != x && g[l].validFrom < g[l].validTo && v.validFrom < v.validTo ::
           g[l].validTo <= v.validFrom || v.validTo <= g[l].validFrom
  {
    var h, rest := g[x := v], g - {x};
    if Disjoint(h) {
      forall l, m, t | l in Covering(rest, t) && m in Covering(rest, t)
        ensures l == m
      {
        assert l in Covering(h, t) && m in Covering(h, t);
      }
      forall l | l in g && l != x && g[l].validFrom < g[l].validTo && v.validFrom < v.validTo
        ensures g[l].validTo <= v.validFrom || v.validTo <= g[l].validFrom
      {
        var t := if g[l].validFrom < v.validFrom then v.validFrom else g[l].validFrom;
        assert !(l in Covering(h, t) && x in Covering(h, t));
      }
    } else {
      var l, m, t :| l in Covering(h, t) && m in Covering(h, t) && l != m;
      if l != x && m != x {
        assert l in Covering(rest, t) && m in Covering(rest, t);
      }
    }
  }

  /** All stopgaps but the highest, the one a reset reopens. */
  function Others(h: History): History
    requires StopgapRows(h) != map[]
  {
    StopgapRows(h) - {Max(StopgapRows(h).Keys)}
  }

  function TopStart(h: History): int
    requires StopgapRows(h) != map[]
  {
    StopgapRows(h)[Max(StopgapRows(h).Keys)].validFrom
  }

  /** The reset reactivates the highest lower lsn whatever its sign.  Where no real row survives,
      that opens the highest stopgap up to the end of time: the windows are then disjoint if and
      only if the other stopgaps are and each of them had ended when that one starts. */
  lemma ResetKeepsDisjointIff(s: ClientState, log: Log, from: int)
    requires Layered(s, log) && 0 < from && !RealSurvivor(s.history, from) && StopgapRows(s.history) != map[]
    ensures Disjoint(Reset(s, from).history) <==>
      Disjoint(Others(s.history)) && EndedBy(Others(s.history), TopStart(s.history))
  {
    var g := StopgapRows(s.history);
    var x := Max(g.Keys);
    ResetReopensStopgap(s, from);
    assert x in g && s.history[x] == g[x];
    StretchedDisjointIff(g, x, g[x].(isCurrent := true, validTo := END_OF_TIME));
    forall l | l in g && l != x
      ensures l in Others(s.history) && Others(s.history)[l] == g[l] && g[l].validFrom < END_OF_TIME
    {
      assert s.history[l] == g[l];
    }
    assert g[x].validFrom < END_OF_TIME;
  }

  /** After the replay the reopened stopgap ends where the real rows begin: the windows are
      disjoint if and only if the other stopgaps are and each of them had ended both when that
      one starts and when the real rows do. */
  lemma ReloadOverStopgapsIff(s: ClientState, log: Log, from: int, es: seq<Event>)
    requires LayeredCall(s, log, from, es, None)
    requires !RealSurvivor(s.history, from) && StopgapRows(s.history) != map[]
    ensures Disjoint(Reload(s, from, es, None).history) <==>
      Disjoint(Others(s.history))
      && EndedBy(Others(s.history), TopStart(s.history)) && EndedBy(Others(s.history), es[0].commitTs)
  {
    var g, t, ts := StopgapRows(s.history), Reload(s, from, es, None), es[0].commitTs;
    ReloadOverStopgaps(s, log, from, es);
    LayeredDisjointIff(t, log);
    ClosedDisjointIff(g, ts);
    ClosedEnds(g, ts);
    StopgapEnds(t.history, ts);
  }

  lemma ClosedDisjointIff(g: History, ts: int)
    requires g != map[] && forall l | l in g :: l < 0
    ensures var x := Max(g.Keys); var rest := g - {x};
      EndedBy(rest, ts) ==> (Disjoint(ClosedAt(g, ts)) <==> Disjoint(rest) && EndedBy(rest, g[x].validFrom))
  {
    var x := Max(g.Keys);
    var v, rest := g[x].(validTo := ts), g - {x};
    StretchedDisjointIff(g, x, v);
    forall l | l in g && l != x
      ensures l in rest && rest[l] == g[l]
    {
    }
    if EndedBy(rest, ts) && !EndedBy(rest, v.validFrom) {
      var l :| l in rest && rest[l].validFrom < rest[l].validTo && v.validFrom < rest[l].validTo;
      assert rest[l].validTo <= ts && g[l] == rest[l];
    }
  }

  lemma StopgapEnds(h: History, ts: int)
    ensures EndedBy(h, ts) <==> EndedBy(StopgapRows(h), ts)
  {
    forall l | l in h && l < 0
      ensures l in StopgapRows(h) && StopgapRows(h)[l] == h[l]
    {
    }
  }

  lemma ClosedEnds(g: History, ts: int)
    requires g != map[] && forall l | l in g :: l < 0
    ensures EndedBy(ClosedAt(g, ts), ts) <==> EndedBy(g - {Max(g.Keys)}, ts)
  {
    var x := Max(g.Keys);
    forall l | l in g && l != x
      ensures ClosedAt(g, ts)[l] == g[l] && l in g - {x}
    {
    }
  }

  /** A reload and disjointness, whatever survives. */
  lemma ReloadKeepsDisjointIff(s: ClientState, log: Log, from: int, es: seq<Event>, attrs: Option<Attributes>)
    requires LayeredCall(s, log, from, es, attrs)
    ensures Disjoint(Reload(s, from, es, attrs).history) <==>
      if RealSurvivor(s.history, from) || StopgapRows(s.history) == map[] then Disjoint(s.history)
      else Disjoint(Others(s.history))
           && EndedBy(Others(s.history), TopStart(s.history)) && EndedBy(Others(s.history), es[0].commitTs)
  {
    var t := Reload(s, from, es, attrs);
    if StopgapRows(s.history) == map[] {
      WithoutStopgapsDisjoint(s, log);
      CallWithoutStopgaps(s, log, from, es, attrs);
      ReloadKeepsSettled(s, log, from, es, attrs);
      ChainIsDisjoint(t.history);
    } else {
      var l := Pick(StopgapRows(s.history).Keys);
      assert l in Below(s.history, from);
      if RealSurvivor(s.history, from) {
        ReloadOverRealRows(s, log, from, es);
        LayeredDisjointIff(s, log);
        LayeredDisjointIff(t, log);
        SameStopgapsSameEnds(s.history, t.history, FirstStart(s.history));
      } else {
        ReloadOverStopgapsIff(s, log, from, es);
      }
    }
  }

  lemma WithoutStopgapsDisjoint(s: ClientState, log: Log)
    requires Layered(s, log) && StopgapRows(s.history) == map[]
    ensures NoStopgap(s.history) && Disjoint(s.history)
  {
    forall l | l in s.history
      ensures 0 <= l
    {
      assert l < 0 ==> l in StopgapRows(s.history);
    }
    SettledIsLayered(s, log);
    ChainIsDisjoint(s.history);
  }

  lemma ResetOpensTop(s: ClientState, log: Log, from: int)
    requires Layered(s, log) && 0 < from
    ensures OnlyTopOpen(Reset(s, from).history) && RowsBelow(Reset(s, from).history, from)
  {
    var p := Reset(s, from);
    SurvivorsStay(s, from);
    if RealSurvivor(s.history, from) {
      ResetOverRealRows(s, log, from);
      var chain := RealRows(p.history);
      RealTop(p.history);
      forall l | l in p.history
        ensures l == Max(p.history.Keys) <==> p.history[l].isCurrent
      {
        if 0 <= l {
          assert Linked(chain, l);
          assert l != Max(chain.Keys) ==> Max(chain.Keys) in After(chain, l);
        }
      }
    } else {
      ResetReopensStopgap(s, from);
    }
  }

  /** The state a replay starts from. */
  lemma ReplayStart(s: ClientState, log: Log, from: int, es: seq<Event>, attrs: Option<Attributes>)
    requires LayeredCall(s, log, from, es, attrs)
    ensures var p := Reset(InsertPlaceholder(s, from, attrs), from);
      && 0 <= Floor(p.watermark) && (forall l | l in p.history :: l <= Floor(p.watermark))
      && AscendsAbove(es, Floor(p.watermark))
      && (p.history != map[] <==> attrs.Some? || Below(s.history, from) != map[])
  {
    var p := Reset(InsertPlaceholder(s, from, attrs), from);
    forall i | 0 <= i < |es|
      ensures from <= es[i].lsn
    {
      assert es[0].lsn <= es[i].lsn;
    }
    if attrs.Some? {
      ResetPlaceholder(s, from, attrs.value);
      assert from - 1 in p.history;
    } else {
      assert p.history.Keys == Below(s.history, from).Keys;
    }
    forall l | l in p.history
      ensures l <= Floor(p.watermark)
    {
      if attrs.None? {
        assert 0 <= l ==> l in RealRows(s.history);
      }
    }
  }

  lemma ReplayedHasVersionIff(base: History, h: History, es: seq<Event>, i: nat)
    requires ReplayedRows(base, h, es, |es|) && AscendingEvents(es) && i < |es|
    ensures LeadingDeletes(base, es) <= i ==> HasVersion(h, es[i])
    ensures i < LeadingDeletes(base, es) ==> es[i].lsn !in h
  {
    if LeadingDeletes(base, es) <= i {
      assert Landed(base, h, es, i);
    } else {
      LeadingDeletesSpan(base, es);
      assert es[i].lsn !in LandedLsns(base, es, |es|);
    }
  }

  /** After a reload an event from the reset point on has its version if and only if some row,
      surviving or placeholder, was there to start from, or it does not stand among the deletes
      the log starts with. */
  lemma ReloadLandsIff(s: ClientState, log: Log, from: int, es: seq<Event>, attrs: Option<Attributes>, i: nat)
    requires LayeredCall(s, log, from, es, attrs) && i < |es|
    ensures HasVersion(Reload(s, from, es, attrs).history, es[i]) <==>
      Below(s.history, from) != map[] || attrs.Some? || LeadingDeletes(map[], es) <= i
  {
    var p := Reset(InsertPlaceholder(s, from, attrs), from);
    ReplayStart(s, log, from, es, attrs);
    if p.history != map[] {
      AllLand(p, es, i);
      assert i > 0 ==> es[0].lsn < es[i].lsn;
    } else {
      NoSurvivorNoStopgap(s.history, from);
      CallWithoutStopgaps(s, log, from, es, attrs);
      ResetIsReplayable(s, log, from, es, attrs);
      ReplayMatchesLog(p, es, |es|);
      assert es[..|es|] == es;
      ReplayedHasVersionIff(p.history, Rebuild(s, from, es, attrs).history, es, i);
    }
  }

  /** No gap: an instant that a deleted version had reached is covered again before the
      placeholder goes, by exactly one real row, from the reset point on and so not the
      placeholder. */
  lemma RebuildCovers(s: ClientState, log: Log, from: int, es: seq<Event>, attrs: Option<Attributes>,
                      doomed: int, i: nat, t: int)
    requires LayeredCall(s, log, from, es, attrs)
    requires attrs.Some? || Below(s.history, from) != map[]
    requires doomed in s.history && i < |es| && es[i].lsn == doomed
    requires s.history[doomed].validFrom <= t < END_OF_TIME
    ensures exists l :: doomed <= l && Covering(RealRows(Rebuild(s, from, es, attrs).history), t) == {l}
  {
    var p, r := Reset(InsertPlaceholder(s, from, attrs), from), Rebuild(s, from, es, attrs);
    assert Logged(log, es[i]) && es[0].lsn <= es[i].lsn;
    ReplayStart(s, log, from, es, attrs);
    AllLand(p, es, i);
    RebuildKeepsLayered(s, log, from, es, attrs);
    assert doomed in RealRows(s.history) && RealRows(s.history)[doomed].validFrom == StartOf(log, doomed);
    assert doomed in Started(RealRows(r.history), t);
    LookupIsAsOf(RealRows(r.history), t);
  }

  /** Nothing replayed is ever rejected as stale. */
  lemma NothingStale(s: ClientState, log: Log, from: int, es: seq<Event>, attrs: Option<Attributes>, i: nat)
    requires LayeredCall(s, log, from, es, attrs) && i < |es|
    ensures Judge(Run(Reset(InsertPlaceholder(s, from, attrs), from), es[..i]), es[i]) != Rejected(StaleLsn)
  {
    var p := Reset(InsertPlaceholder(s, from, attrs), from);
    ReplayStart(s, log, from, es, attrs);
    ReplayProgress(p, es, i);
    assert i > 0 ==> es[i - 1].lsn < es[i].lsn;
  }

  /** Reloading any window of any client: the rows from the reset point on match the log's events
      there one to one, with the log's present values, and the rows below keep everything but the
      window and flag of the reactivated one - if and only if no placeholder met a leading
      delete. */
  lemma ReloadMatchesLogIff(s: ClientState, log: Log, from: int, es: seq<Event>, attrs: Option<Attributes>)
    requires LayeredCall(s, log, from, es, attrs)
    ensures ReplayedRows(Reset(s, from).history, Reload(s, from, es, attrs).history, es, |es|)
      <==> attrs.None? || !es[0].change.Delete?
  {
    var base := Reset(s, from);
    assert InsertPlaceholder(s, from, None) == s;
    ReplayStart(s, log, from, es, None);
    ResetOpensTop(s, log, from);
    ReplayMatchesLog(base, es, |es|);
    assert es[..|es|] == es;
    if attrs.Some? {
      ResetPlaceholder(s, from, attrs.value);
      NoSurvivorNoStopgap(s.history, from);
      CallWithoutStopgaps(s, log, from, es, attrs);
      if !es[0].change.Delete? {
        PlaceholderLeavesNoTrace(s, log, from, es, attrs.value);
        ReplayedRowsIgnoreKeys(Reload(s, from, es, None).history, Reload(s, from, es, attrs).history, es);
      } else {
        ReloadLandsIff(s, log, from, es, attrs, 0);
        LeadingDeletesSpan(map[], es);
        assert from !in LandedLsns(map[], es, |es|);
      }
    }
  }

  /** A reload makes and deletes no stopgap. */
  lemma ReloadKeepsStopgapLsns(s: ClientState, log: Log, from: int, es: seq<Event>, attrs: Option<Attributes>, l: int)
    requires LayeredCall(s, log, from, es, attrs) && l < 0
    ensures l in s.history <==> l in Reload(s, from, es, attrs).history
  {
    var t := Reload(s, from, es, attrs);
    if Below(s.history, from) == map[] {
      NoSurvivorNoStopgap(s.history, from);
      CallWithoutStopgaps(s, log, from, es, attrs);
      ReloadKeepsSettled(s, log, from, es, attrs);
    } else if RealSurvivor(s.history, from) {
      ReloadOverRealRows(s, log, from, es);
    } else {
      ResetReopensStopgap(s, from);
      ReloadOverStopgaps(s, log, from, es);
      assert l in s.history <==> l in StopgapRows(s.history);
      assert l in t.history <==> l in StopgapRows(t.history);
    }
  }
}

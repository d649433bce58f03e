/** Reloading one client twice with the same log (reload.py; the property scripts/verify.sh looks
for), and exactly when the second reload changes nothing. */
module ReloadAgain {
  import opened Model
  import opened FiniteSets
  import opened Histories
  import opened ClientCdc
  import opened Lists
  import opened Rewind
  import opened Streaming
  import opened Replay
  import opened ClientReload
  import opened StopgapReload

  /** A second reset finds what the first one left, the placeholder gone. */
  lemma ReloadResets(s: ClientState, log: Log, from: int, es: seq<Event>, attrs: Option<Attributes>)
    requires LayeredCall(s, log, from, es, attrs)
    ensures Reset(Reload(s, from, es, attrs), from).history == Reset(s, from).history
  {
    forall i | 0 <= i < |es|
      ensures from <= es[i].lsn
    {
      assert es[0].lsn <= es[i].lsn;
    }
    if attrs.None? {
      ResetOpensTop(s, log, from);
      ReplayIsUndone(Reset(s, from), es, from);
    } else {
      ResetPlaceholder(s, from, attrs.value);
      var p, r := Reset(InsertPlaceholder(s, from, attrs), from), Rebuild(s, from, es, attrs);
      RunRowsAtLeast(p, es, from - 1);
      assert Below(r.history - {from - 1}, from) == map[];
    }
  }

  lemma WatermarkAfter(p: ClientState, es: seq<Event>)
    requires 0 <= Floor(p.watermark) && AscendsAbove(es, Floor(p.watermark)) && es != []
    ensures Run(p, es).watermark ==
      if LeadingDeletes(p.history, es) < |es| then Some(Last(es).lsn) else p.watermark
  {
    ReplayProgress(p, es, |es|);
    LeadingDeletesSpan(p.history, es);
    assert es[..|es|] == es;
  }

  /** Replayed twice from the same rows without a placeholder. */
  lemma PlainRepeat(s: ClientState, log: Log, from: int, es: seq<Event>)
    requires LayeredCall(s, log, from, es, None)
    ensures Similar(Reload(Reload(s, from, es, None), from, es, None), Reload(s, from, es, None))
  {
    var once := Reload(s, from, es, None);
    var p, q := Reset(s, from), Reset(once, from);
    ReloadResets(s, log, from, es, None);
    ReplayStart(s, log, from, es, None);
    ReloadKeepsLayered(s, log, from, es, None);
    ReplayStart(once, log, from, es, None);
    assert InsertPlaceholder(s, from, None) == s && InsertPlaceholder(once, from, None) == once;
    ReplaySameRows(p, q, es);
    WatermarkAfter(p, es);
    WatermarkAfter(q, es);
  }

  /** A client with one row, the tombstone of an event. */
  function Tombstone(a: Attributes, key: int, e: Event): ClientState {
    ClientState(map[e.lsn := Opened(key, Carried(a), e)], Some(e.lsn), key + 1)
  }

  /** The first replayed event, a delete, turns the placeholder into a tombstone. */
  lemma DeleteOnPlaceholder(s: ClientState, from: int, a: Attributes, e: Event)
    requires Below(s.history, from) == map[] && e.lsn == from && e.change.Delete? && 0 < from
    ensures InStep(Step(Reset(InsertPlaceholder(s, from, Some(a)), from), e), Tombstone(a, 0, e), from - 1)
  {
    ResetPlaceholder(s, from, a);
    var p := Reset(InsertPlaceholder(s, from, Some(a)), from);
    var closed := EndDate(p.history, e.commitTs);
    assert closed.Keys == {from - 1} && Max({from - 1}) == from - 1;
    assert Step(p, e).history.Keys == {from - 1, from};
  }

  /** Where a placeholder meets a leading delete, the final rows are those of the log replayed onto
      a tombstone with the placeholder's values. */
  lemma ReloadOnTombstone(s: ClientState, log: Log, from: int, es: seq<Event>, a: Attributes)
    requires LayeredCall(s, log, from, es, Some(a)) && es[0].change.Delete?
    ensures Similar(Reload(s, from, es, Some(a)), Run(Tombstone(a, 0, es[0]), es[1..]))
  {
    var p, t := Reset(InsertPlaceholder(s, from, Some(a)), from), Tombstone(a, 0, es[0]);
    RunFirst(p, es);
    DeleteOnPlaceholder(s, from, a, es[0]);
    forall i | 0 <= i < |es| - 1
      ensures from - 1 < es[1..][i].lsn
    {
      assert es[0].lsn < es[i + 1].lsn;
    }
    RunKeepsInStep(Step(p, es[0]), t, from - 1, es[1..]);
    ShadowRemoved(Rebuild(s, from, es, Some(a)).history, Run(t, es[1..]).history, from - 1);
  }

  lemma TombstoneStays(a: Attributes, es: seq<Event>)
    requires es != [] && AscendingEvents(es) && 0 < es[0].lsn
    ensures var h := Run(Tombstone(a, 0, es[0]), es[1..]).history;
      es[0].lsn in h && h[es[0].lsn].attrs == Carried(a)
  {
    forall i | 0 <= i < |es| - 1
      ensures es[0].lsn < es[1..][i].lsn
    {
      assert es[0].lsn < es[i + 1].lsn;
    }
    assert es[0].lsn in Tombstone(a, 0, es[0]).history;
    RunLands(Tombstone(a, 0, es[0]), es[1..]);
  }

  lemma SimilarTrans(a: ClientState, b: ClientState, c: ClientState)
    requires Similar(a, b) && Similar(c, b)
    ensures Similar(a, c) && Similar(c, a)
  {
  }

  /** Two placeholders under the same leading delete leave the same rows if and only if they carry
      the same values. */
  lemma TombstonesAgreeIff(s: ClientState, t: ClientState, log: Log, from: int, es: seq<Event>, a: Attributes, b: Attributes)
    requires LayeredCall(s, log, from, es, Some(a)) && LayeredCall(t, log, from, es, Some(b))
    requires es[0].change.Delete?
    ensures Similar(Reload(t, from, es, Some(b)), Reload(s, from, es, Some(a))) <==> Carried(a) == Carried(b)
  {
    var x, y := Run(Tombstone(a, 0, es[0]), es[1..]), Run(Tombstone(b, 0, es[0]), es[1..]);
    ReloadOnTombstone(s, log, from, es, a);
    ReloadOnTombstone(t, log, from, es, b);
    TombstoneStays(a, es);
    TombstoneStays(b, es);
    if Carried(a) == Carried(b) {
      assert x == y;
      SimilarTrans(Reload(t, from, es, Some(b)), x, Reload(s, from, es, Some(a)));
    } else {
      var g, h := Reload(s, from, es, Some(a)).history, Reload(t, from, es, Some(b)).history;
      assert g[from].(key := 0).attrs == Carried(a) && h[from].(key := 0).attrs == Carried(b);
    }
  }

  /** What the second reload is called with. */
  ghost predicate RepeatCall(s: ClientState, log: Log, from: int, es: seq<Event>,
                             first: Option<Attributes>, second: Option<Attributes>) {
    && LayeredCall(s, log, from, es, first)
    && LayeredCall(Reload(s, from, es, first), log, from, es, second)
  }

  /** When the second reload finds everything as it would leave it: a version survives below the
      reset point, the log there starts with an insert or update, no placeholder is needed, or
      both placeholders carry the same values. */
  ghost predicate RepeatsAlike(s: ClientState, from: int, es: seq<Event>,
                               first: Option<Attributes>, second: Option<Attributes>)
    requires es != []
  {
    || Below(s.history, from) != map[]
    || !es[0].change.Delete?
    || (first == None && second == None)
    || (first.Some? && second.Some? && Carried(first.value) == Carried(second.value))
  }

  lemma InsertFirstRepeat(s: ClientState, log: Log, from: int, es: seq<Event>,
                          first: Option<Attributes>, second: Option<Attributes>)
    requires RepeatCall(s, log, from, es, first, second) && !es[0].change.Delete?
    ensures Similar(Reload(Reload(s, from, es, first), from, es, second), Reload(s, from, es, first))
  {
    var plain, once := Reload(s, from, es, None), Reload(s, from, es, first);
    if first.Some? {
      NoSurvivorNoStopgap(s.history, from);
      CallWithoutStopgaps(s, log, from, es, first);
      PlaceholderLeavesNoTrace(s, log, from, es, first.value);
    }
    if second.Some? {
      NoSurvivorNoStopgap(once.history, from);
      CallWithoutStopgaps(once, log, from, es, second);
      PlaceholderLeavesNoTrace(once, log, from, es, second.value);
    }
    PlainRepeat(s, log, from, es);
    ResetIgnoresKeys(once, plain, from);
    ReplayStart(once, log, from, es, second);
    ReplayIgnoresWatermark(Reset(once, from), Reset(plain, from), es);
  }

  /** Idempotence, exactly: reloading the same window again leaves rows and watermark as they were,
      surrogate keys aside, if and only if both reloads start alike. */
  lemma ReloadIsIdempotentIff(s: ClientState, log: Log, from: int, es: seq<Event>,
                              first: Option<Attributes>, second: Option<Attributes>)
    requires RepeatCall(s, log, from, es, first, second)
    ensures Similar(Reload(Reload(s, from, es, first), from, es, second), Reload(s, from, es, first))
      <==> RepeatsAlike(s, from, es, first, second)
  {
    var once := Reload(s, from, es, first);
    if !es[0].change.Delete? {
      InsertFirstRepeat(s, log, from, es, first, second);
    } else if first.Some? && second.Some? {
      TombstonesAgreeIff(s, once, log, from, es, first.value, second.value);
    } else {
      ReloadResets(s, log, from, es, first);
      SurvivorsStay(s, from);
      SurvivorsStay(once, from);
      if first == None && second == None {
        PlainRepeat(s, log, from, es);
      } else {
        OneLands(s, log, from, es, first, second);
      }
    }
  }

  /** With a placeholder one time only, the leading delete has its version one time only. */
  lemma OneLands(s: ClientState, log: Log, from: int, es: seq<Event>,
                 first: Option<Attributes>, second: Option<Attributes>)
    requires RepeatCall(s, log, from, es, first, second) && es[0].change.Delete?
    requires Below(s.history, from) == map[] && first.Some? != second.Some?
    ensures !Similar(Reload(Reload(s, from, es, first), from, es, second), Reload(s, from, es, first))
  {
    var once := Reload(s, from, es, first);
    var twice := Reload(once, from, es, second);
    ReloadLandsIff(s, log, from, es, first, 0);
    ReloadLandsIff(once, log, from, es, second, 0);
    assert LeadingDeletes(map[], es) > 0;
    ReloadResets(s, log, from, es, first);
    SurvivorsStay(s, from);
    SurvivorsStay(once, from);
  }

  const BLANK := Attributes("", 0, "")

  /** Equal rows but for surrogate keys and values: the lookup picks the same row of both. */
  ghost predicate SameWindows(g: History, h: History) {
    && g.Keys == h.Keys
    && forall l | l in g :: g[l].(key := 0, attrs := BLANK) == h[l].(key := 0, attrs := BLANK)
  }

  lemma ContentGivesWindows(g: History, h: History)
    requires SameContent(g, h)
    ensures SameWindows(g, h)
  {
    forall l | l in g
      ensures g[l].(key := 0, attrs := BLANK) == h[l].(key := 0, attrs := BLANK)
    {
      assert g[l].(key := 0) == h[l].(key := 0);
    }
  }

  lemma WindowsAnswerAlike(g: History, h: History, t: int)
    requires SameWindows(g, h)
    ensures Covering(g, t) == Covering(h, t)
  {
    forall l | l in g
      ensures Covers(g[l], t) == Covers(h[l], t)
    {
      assert g[l].(key := 0, attrs := BLANK) == h[l].(key := 0, attrs := BLANK);
    }
  }

  /** Windows never depend on the values a row holds. */
  lemma StepIgnoresValues(a: ClientState, b: ClientState, e: Event)
    requires SameWindows(a.history, b.history) && a.watermark == b.watermark
    ensures SameWindows(Step(a, e).history, Step(b, e).history) && Step(a, e).watermark == Step(b, e).watermark
  {
    var g, h := EndDate(a.history, e.commitTs), EndDate(b.history, e.commitTs);
    assert a.history == map[] <==> b.history == map[] by {
      assert a.history.Keys == b.history.Keys;
    }
    assert g.Keys == a.history.Keys && h.Keys == b.history.Keys;
    forall l | l in g
      ensures g[l].(key := 0, attrs := BLANK) == h[l].(key := 0, attrs := BLANK)
    {
      assert a.history[l].(key := 0, attrs := BLANK) == b.history[l].(key := 0, attrs := BLANK);
    }
  }

  lemma {:induction false} RunIgnoresValues(a: ClientState, b: ClientState, es: seq<Event>)
    requires SameWindows(a.history, b.history) && a.watermark == b.watermark
    ensures SameWindows(Run(a, es).history, Run(b, es).history)
    ensures Run(a, es).watermark == Run(b, es).watermark
  {
    if es != [] {
      RunIgnoresValues(a, b, DropLast(es));
      StepIgnoresValues(Run(a, DropLast(es)), Run(b, DropLast(es)), Last(es));
    }
  }

  lemma WindowsThrough(g: History, g': History, h: History, h': History)
    requires SameContent(g, g') && SameContent(h, h') && SameWindows(g', h')
    ensures SameWindows(g, h)
  {
    ContentGivesWindows(g, g');
    ContentGivesWindows(h, h');
    forall l | l in g
      ensures g[l].(key := 0, attrs := BLANK) == h[l].(key := 0, attrs := BLANK)
    {
      assert g[l].(key := 0, attrs := BLANK) == g'[l].(key := 0, attrs := BLANK);
      assert h[l].(key := 0, attrs := BLANK) == h'[l].(key := 0, attrs := BLANK);
    }
  }

  /** Whatever values the two placeholders carry, the windows come out the same. */
  lemma RepeatKeepsWindows(s: ClientState, log: Log, from: int, es: seq<Event>,
                           first: Option<Attributes>, second: Option<Attributes>)
    requires RepeatCall(s, log, from, es, first, second)
    requires RepeatsAlike(s, from, es, first, second) || (first.Some? && second.Some?)
    ensures SameWindows(Reload(Reload(s, from, es, first), from, es, second).history, Reload(s, from, es, first).history)
  {
    var once := Reload(s, from, es, first);
    ReloadIsIdempotentIff(s, log, from, es, first, second);
    if RepeatsAlike(s, from, es, first, second) {
      ContentGivesWindows(Reload(once, from, es, second).history, once.history);
    } else {
      var x, y := Tombstone(first.value, 0, es[0]), Tombstone(second.value, 0, es[0]);
      ReloadOnTombstone(s, log, from, es, first.value);
      ReloadOnTombstone(once, log, from, es, second.value);
      RunIgnoresValues(y, x, es[1..]);
      WindowsThrough(Reload(once, from, es, second).history, Run(y, es[1..]).history,
                     once.history, Run(x, es[1..]).history);
    }
  }

  /** Every row of a client carries the values a. */
  ghost predicate AllCarry(h: History, a: Attributes) {
    forall l | l in h :: Carried(h[l].attrs) == Carried(a)
  }

  ghost predicate EventsCarry(es: seq<Event>, a: Attributes) {
    forall i | 0 <= i < |es| && !es[i].change.Delete? :: Carried(es[i].change.after) == Carried(a)
  }

  lemma {:induction false} RunCarries(s: ClientState, es: seq<Event>, a: Attributes)
    requires AllCarry(s.history, a) && EventsCarry(es, a)
    ensures AllCarry(Run(s, es).history, a)
  {
    if es != [] {
      var mid, e := Run(s, DropLast(es)), Last(es);
      RunCarries(s, DropLast(es), a);
      assert !e.change.Delete? ==> Carried(e.change.after) == Carried(a);
      assert AllCarry(EndDate(mid.history, e.commitTs), a);
    }
  }

  /** One value throughout: the rows that may be copied and the logged inserts and updates agree. */
  ghost predicate OneValue(h: History, es: seq<Event>) {
    forall pick | pick in h :: EventsCarry(es, h[pick].attrs)
  }

  lemma SecondCall(s: ClientState, log: Log, from: int, es: seq<Event>, a: Attributes)
    requires LayeredCall(s, log, from, es, Some(a))
    ensures forall b :: LayeredCall(Reload(s, from, es, Some(a)), log, from, es, Some(b))
  {
    ReloadKeepsLayered(s, log, from, es, Some(a));
    ReloadResets(s, log, from, es, Some(a));
    SurvivorsStay(s, from);
    SurvivorsStay(Reload(s, from, es, Some(a)), from);
    var p := Reset(InsertPlaceholder(s, from, Some(a)), from);
    ReplayStart(s, log, from, es, Some(a));
    WatermarkAfter(p, es);
    LeadingDeletesSpan(p.history, es);
  }

  /** Each placeholder copies some row about to be deleted, the query does not say which.  For a
      client without survivors whose log starts with a delete, the second reload changes nothing
      whichever rows are copied if and only if all those rows and all logged inserts and updates
      from the reset point on carry one value. */
  lemma AnyRepeatIsIdleIff(s: ClientState, log: Log, from: int, es: seq<Event>)
    requires LayeredCall(s, log, from, es, None) && s.watermark.Some?
    requires Below(s.history, from) == map[] && es[0].change.Delete?
    ensures (forall pick, again | pick in s.history
               && again in Reload(s, from, es, Some(s.history[pick].attrs)).history ::
               var once := Reload(s, from, es, Some(s.history[pick].attrs));
               Similar(Reload(once, from, es, Some(once.history[again].attrs)), once))
      <==> OneValue(s.history, es)
  {
    forall pick, i | pick in s.history && 0 <= i < |es| && !es[i].change.Delete?
      ensures var once := Reload(s, from, es, Some(s.history[pick].attrs));
        es[i].lsn in once.history
        && (Similar(Reload(once, from, es, Some(once.history[es[i].lsn].attrs)), once) <==>
            Carried(es[i].change.after) == Carried(s.history[pick].attrs))
    {
      RepeatCopyingEvent(s, log, from, es, s.history[pick].attrs, i);
    }
    if OneValue(s.history, es) {
      forall pick, again | pick in s.history && again in Reload(s, from, es, Some(s.history[pick].attrs)).history
        ensures var once := Reload(s, from, es, Some(s.history[pick].attrs));
          Similar(Reload(once, from, es, Some(once.history[again].attrs)), once)
      {
        RepeatOfOneValue(s, log, from, es, s.history[pick].attrs, again);
      }
    } else {
      var pick :| pick in s.history && !EventsCarry(es, s.history[pick].attrs);
      var i :| 0 <= i < |es| && !es[i].change.Delete? && Carried(es[i].change.after) != Carried(s.history[pick].attrs);
      var once := Reload(s, from, es, Some(s.history[pick].attrs));
      assert es[i].lsn in once.history;
    }
  }

  lemma RepeatCopyingEvent(s: ClientState, log: Log, from: int, es: seq<Event>, a: Attributes, i: nat)
    requires LayeredCall(s, log, from, es, Some(a)) && es[0].change.Delete?
    requires i < |es| && !es[i].change.Delete?
    ensures var once := Reload(s, from, es, Some(a));
      es[i].lsn in once.history
      && (Similar(Reload(once, from, es, Some(once.history[es[i].lsn].attrs)), once) <==>
          Carried(es[i].change.after) == Carried(a))
  {
    var once := Reload(s, from, es, Some(a));
    ReloadLandsIff(s, log, from, es, Some(a), i);
    SecondCall(s, log, from, es, a);
    TombstonesAgreeIff(s, once, log, from, es, a, es[i].change.after);
  }

  /** With one value throughout, every row of the reloaded client carries it. */
  lemma OneValueStays(s: ClientState, log: Log, from: int, es: seq<Event>, a: Attributes, again: int)
    requires LayeredCall(s, log, from, es, Some(a)) && es[0].change.Delete? && EventsCarry(es, a)
    requires again in Reload(s, from, es, Some(a)).history
    ensures Carried(Reload(s, from, es, Some(a)).history[again].attrs) == Carried(a)
  {
    var once := Reload(s, from, es, Some(a));
    var h := Run(Tombstone(a, 0, es[0]), es[1..]).history;
    ReloadOnTombstone(s, log, from, es, a);
    RunCarries(Tombstone(a, 0, es[0]), es[1..], a);
    assert once.history[again].(key := 0) == h[again].(key := 0);
    assert once.history[again].(key := 0).attrs == h[again].(key := 0).attrs;
  }

  lemma RepeatOfOneValue(s: ClientState, log: Log, from: int, es: seq<Event>, a: Attributes, again: int)
    requires LayeredCall(s, log, from, es, Some(a)) && es[0].change.Delete? && EventsCarry(es, a)
    requires again in Reload(s, from, es, Some(a)).history
    ensures var once := Reload(s, from, es, Some(a));
      Similar(Reload(once, from, es, Some(once.history[again].attrs)), once)
  {
    var once := Reload(s, from, es, Some(a));
    OneValueStays(s, log, from, es, a, again);
    SecondCall(s, log, from, es, a);
    TombstonesAgreeIff(s, once, log, from, es, a, once.history[again].attrs);
  }
}

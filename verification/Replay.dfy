/** Replay in ascending lsn order onto a reset client, row by row (reload.py, the event loop
of historical_reload). */
module Replay {
  import opened Model
  import opened FiniteSets
  import opened Histories
  import opened ClientCdc
  import opened Lists
  import opened Rewind
  import opened Streaming

  /** What a reload replays and onto what: an ascending list above the rolled-back watermark, onto
      rows below it of which only the highest is open. */
  ghost predicate Replayable(s: ClientState, es: seq<Event>) {
    && 0 <= Floor(s.watermark) && AscendsAbove(es, Floor(s.watermark))
    && OnlyTopOpen(s.history) && forall l | l in s.history :: l <= Floor(s.watermark)
  }

  ghost predicate AscendsAbove(es: seq<Event>, floor: int) {
    AscendingEvents(es) && forall i | 0 <= i < |es| :: floor < es[i].lsn
  }

  lemma StepAbove(s: ClientState, e: Event)
    requires 0 <= Floor(s.watermark) < e.lsn
    ensures if s.history == map[] && e.change.Delete? then Step(s, e) == s
            else Step(s, e).history != map[] && Step(s, e).watermark == Some(e.lsn)
  {
    GateStep(s, e);
  }

  lemma {:induction false} ReplayProgress(s: ClientState, es: seq<Event>, n: nat)
    requires 0 <= Floor(s.watermark) && AscendsAbove(es, Floor(s.watermark)) && n <= |es|
    ensures var t := Run(s, es[..n]);
      if n <= LeadingDeletes(s.history, es) then t == s
      else t.history != map[] && t.watermark == Some(es[n - 1].lsn)
  {
    if n == 0 {
      assert es[..n] == [];
    } else {
      ReplayProgress(s, es, n - 1);
      RunOneMore(s, es, n - 1);
      LeadingDeletesSpan(s.history, es);
      StepAbove(Run(s, es[..n - 1]), es[n - 1]);
    }
  }

  /** Replay rejects nothing as stale: every event lands, except deletes at the very start of
      an empty history. */
  lemma ReplayJudges(s: ClientState, es: seq<Event>, i: nat)
    requires Replayable(s, es) && i < |es|
    ensures Judge(Run(s, es[..i]), es[i]) ==
      if i < LeadingDeletes(s.history, es) then Rejected(DeleteWithNoBaseline) else Applied
  {
    LeadingDeletesSpan(s.history, es);
    ReplayProgress(s, es, i);
    if i > 0 {
      assert es[i - 1].lsn < es[i].lsn;
    }
  }

  /** Row v is what event e lands as on top of the values before it. */
  ghost predicate LandedAs(v: Version, e: Event, before: Option<Attributes>) {
    && v.validFrom == e.commitTs
    && v.isDeleted == e.change.Delete?
    && match e.change
       case Insert(after) => v.attrs == after
       case Update(after) => v.attrs == after
       case Delete => before.Some? && v.attrs == before.value.(status := "deleted")
  }

  function TopAttributes(h: History): Option<Attributes> {
    if h == map[] then None else Some(h[Max(h.Keys)].attrs)
  }

  /** The values in force when event i of a replay arrives. */
  function ValuesBefore(base: History, h: History, es: seq<Event>, i: nat): Option<Attributes>
    requires i < |es|
  {
    if i == LeadingDeletes(base, es) then TopAttributes(base)
    else if i > 0 && es[i - 1].lsn in h then Some(h[es[i - 1].lsn].attrs)
    else None
  }

  /** The lsns that gain a row. */
  function LandedLsns(base: History, es: seq<Event>, n: nat): set<int>
    requires n <= |es|
  {
    set i | LeadingDeletes(base, es) <= i < n :: es[i].lsn
  }

  /** An old row after a replay: only the last one may lose its open window. */
  ghost predicate OldRowKept(base: History, h: History, l: int)
    requires l in base && l in h
  {
    && h[l].key == base[l].key && h[l].attrs == base[l].attrs
    && h[l].validFrom == base[l].validFrom && h[l].isDeleted == base[l].isDeleted
    && (l != Max(base.Keys) ==> h[l] == base[l])
  }

  /** Event i has its row, with its own values. */
  ghost predicate Landed(base: History, h: History, es: seq<Event>, i: nat)
    requires i < |es|
  {
    es[i].lsn in h && LandedAs(h[es[i].lsn], es[i], ValuesBefore(base, h, es, i))
  }

  /** The rows after a replay, one to one with the replayed events above the old rows. */
  ghost predicate ReplayedRows(base: History, h: History, es: seq<Event>, n: nat)
    requires n <= |es|
  {
    && h.Keys == base.Keys + LandedLsns(base, es, n)
    && (forall l {:trigger OldRowKept(base, h, l)} | l in base :: OldRowKept(base, h, l))
    && forall i {:trigger Landed(base, h, es, i)} | LeadingDeletes(base, es) <= i < n ::
         Landed(base, h, es, i)
  }

  lemma OldRowStays(base: History, mid: History, h: History, n: int, l: int)
    requires Extends(mid, h, n) && base.Keys <= mid.Keys
    requires l in base && OldRowKept(base, mid, l)
    ensures l in h && OldRowKept(base, h, l)
  {
  }

  lemma LandedRowStays(base: History, mid: History, h: History, es: seq<Event>, n: nat, i: nat)
    requires n < |es| && ReplayedRows(base, mid, es, n) && Extends(mid, h, es[n].lsn)
    requires LeadingDeletes(base, es) <= i < n
    ensures Landed(base, h, es, i)
  {
    assert Landed(base, mid, es, i);
    assert h[es[i].lsn].attrs == mid[es[i].lsn].attrs;
    if i > LeadingDeletes(base, es) {
      assert Landed(base, mid, es, i - 1);
      assert h[es[i - 1].lsn].attrs == mid[es[i - 1].lsn].attrs;
    }
  }

  lemma NewRowLanded(base: History, mid: History, h: History, es: seq<Event>, n: nat)
    requires n < |es| && LeadingDeletes(base, es) <= n && ReplayedRows(base, mid, es, n)
    requires Extends(mid, h, es[n].lsn)
    requires LandedAs(h[es[n].lsn], es[n], ValuesBefore(base, mid, es, n))
    ensures Landed(base, h, es, n)
  {
  }

  /** One more event landing on a half-finished replay. */
  lemma LandOne(base: History, mid: History, h: History, es: seq<Event>, n: nat)
    requires n < |es| && LeadingDeletes(base, es) <= n && ReplayedRows(base, mid, es, n)
    requires Extends(mid, h, es[n].lsn)
    requires LandedAs(h[es[n].lsn], es[n], ValuesBefore(base, mid, es, n))
    ensures ReplayedRows(base, h, es, n + 1)
  {
    LandedLsnsGrow(base, es, n);
    forall l | l in base
      ensures OldRowKept(base, h, l)
    {
      OldRowStays(base, mid, h, es[n].lsn, l);
    }
    forall i | LeadingDeletes(base, es) <= i < n + 1
      ensures Landed(base, h, es, i)
    {
      if i < n {
        LandedRowStays(base, mid, h, es, n, i);
      } else {
        NewRowLanded(base, mid, h, es, n);
      }
    }
  }

  lemma LandedLsnsGrow(base: History, es: seq<Event>, n: nat)
    requires n < |es| && LeadingDeletes(base, es) <= n
    ensures LandedLsns(base, es, n + 1) == LandedLsns(base, es, n) + {es[n].lsn}
  {
  }

  /** The highest row half-way through a replay. */
  lemma TopOfReplay(base: History, h: History, es: seq<Event>, n: nat)
    requires n < |es| && LeadingDeletes(base, es) <= n && ReplayedRows(base, h, es, n)
    requires AscendingEvents(es) && forall l | l in base :: l < es[LeadingDeletes(base, es)].lsn
    requires n == LeadingDeletes(base, es) ==> h == base
    ensures TopAttributes(h) == ValuesBefore(base, h, es, n)
  {
    if n > LeadingDeletes(base, es) {
      var top := es[n - 1].lsn;
      assert Landed(base, h, es, n - 1);
      forall l | l in h
        ensures l <= top
      {
        if l !in base {
          assert l in LandedLsns(base, es, n);
        }
      }
      assert Max(h.Keys) == top;
    }
  }

  /** One event landing on rows of which only the highest is open. */
  lemma LandsOnTop(s: ClientState, e: Event)
    requires OnlyTopOpen(s.history) && 0 <= Floor(s.watermark) < e.lsn && Judge(s, e) == Applied
    requires forall l | l in s.history :: l <= Floor(s.watermark)
    ensures var t := Step(s, e);
      && Extends(s.history, t.history, e.lsn) && t.watermark == Some(e.lsn) && OnlyTopOpen(t.history)
      && t.history[e.lsn] == Opened(s.nextKey, AppendedAttributes(s.history, e.change).value, e)
      && forall l | l in t.history :: l <= e.lsn
  {
    var h, t := s.history, Step(s, e);
    assert EndDate(h, e.commitTs).Keys == h.Keys;
    forall l | l in h
      ensures t.history[l] == if After(h, l) == {} then h[l].(validTo := e.commitTs, isCurrent := false) else h[l]
    {
      TopHasNoneAfter(h, l);
    }
    assert t.history.Keys == h.Keys + {e.lsn};
    assert e.lsn in t.history.Keys && Max(t.history.Keys) == e.lsn;
  }

  lemma TopHasNoneAfter(h: History, l: int)
    requires l in h
    ensures After(h, l) == {} <==> l == Max(h.Keys)
  {
    assert l != Max(h.Keys) ==> Max(h.Keys) in After(h, l);
  }

  /** Half-way through a replay the rest is still replayable. */
  lemma {:induction false} ReplayGoesOn(s: ClientState, es: seq<Event>, n: nat)
    requires Replayable(s, es) && n <= |es|
    ensures var t := Run(s, es[..n]);
      OnlyTopOpen(t.history) && forall l | l in t.history :: l <= Floor(t.watermark)
  {
    if n == 0 {
      assert es[..n] == [];
    } else {
      ReplayGoesOn(s, es, n - 1);
      RunOneMore(s, es, n - 1);
      ReplayJudges(s, es, n - 1);
      ReplayProgress(s, es, n - 1);
      if LeadingDeletes(s.history, es) < n {
        assert n > 1 ==> es[n - 2].lsn < es[n - 1].lsn;
        LandsOnTop(Run(s, es[..n - 1]), es[n - 1]);
      }
    }
  }

  lemma ReplayLandsOne(s: ClientState, es: seq<Event>, n: nat)
    requires Replayable(s, es) && n < |es| && LeadingDeletes(s.history, es) <= n
    requires ReplayedRows(s.history, Run(s, es[..n]).history, es, n)
    ensures ReplayedRows(s.history, Run(s, es[..n + 1]).history, es, n + 1)
  {
    var base, mid := s.history, Run(s, es[..n]);
    RunOneMore(s, es, n);
    ReplayGoesOn(s, es, n);
    ReplayJudges(s, es, n);
    ReplayProgress(s, es, n);
    assert n > 0 ==> es[n - 1].lsn < es[n].lsn;
    LandsOnTop(mid, es[n]);
    TopOfReplay(base, mid.history, es, n);
    LandOne(base, mid.history, Run(s, es[..n + 1]).history, es, n);
  }

  /** Replay reproduces the log: every event that lands has its row, with the log's values,
      and the rows underneath keep everything but the last one's window. */
  lemma {:induction false} ReplayMatchesLog(s: ClientState, es: seq<Event>, n: nat)
    requires Replayable(s, es) && n <= |es|
    ensures ReplayedRows(s.history, Run(s, es[..n]).history, es, n)
  {
    if n <= LeadingDeletes(s.history, es) {
      ReplayProgress(s, es, n);
      assert LandedLsns(s.history, es, n) == {};
    } else {
      ReplayMatchesLog(s, es, n - 1);
      ReplayLandsOne(s, es, n - 1);
    }
  }

  /** Event e has its version, with e's own values. */
  ghost predicate HasVersion(h: History, e: Event) {
    && e.lsn in h && h[e.lsn].validFrom == e.commitTs && h[e.lsn].isDeleted == e.change.Delete?
    && if e.change.Delete? then h[e.lsn].attrs.status == "deleted" else h[e.lsn].attrs == e.change.after
  }

  lemma StepLands(s: ClientState, e: Event)
    requires s.history != map[] && 0 <= Floor(s.watermark) < e.lsn
    requires forall l | l in s.history :: l <= Floor(s.watermark)
    ensures var t := Step(s, e);
      && t.history.Keys == s.history.Keys + {e.lsn} && t.watermark == Some(e.lsn) && HasVersion(t.history, e)
      && forall l | l in s.history :: t.history[l] ==
           s.history[l].(validTo := t.history[l].validTo, isCurrent := t.history[l].isCurrent)
  {
    assert EndDate(s.history, e.commitTs).Keys == s.history.Keys;
  }

  lemma {:induction false} RunLands(s: ClientState, es: seq<Event>)
    requires s.history != map[] && 0 <= Floor(s.watermark) && AscendsAbove(es, Floor(s.watermark))
    requires forall l | l in s.history :: l <= Floor(s.watermark)
    ensures var t := Run(s, es);
      && t.history != map[] && Floor(t.watermark) == (if es == [] then Floor(s.watermark) else Last(es).lsn)
      && (es != [] ==> t.watermark == Some(Last(es).lsn))
      && (forall l | l in t.history :: l <= Floor(t.watermark))
      && s.history.Keys <= t.history.Keys
      && forall l | l in s.history :: t.history[l] ==
           s.history[l].(validTo := t.history[l].validTo, isCurrent := t.history[l].isCurrent)
  {
    if es != [] {
      RunLands(s, DropLast(es));
      StepLands(Run(s, DropLast(es)), Last(es));
    }
  }

  /** Replayed onto any row at all, every event lands with its own values. */
  lemma {:induction false} AllLand(s: ClientState, es: seq<Event>, i: nat)
    requires s.history != map[] && 0 <= Floor(s.watermark) && AscendsAbove(es, Floor(s.watermark))
    requires forall l | l in s.history :: l <= Floor(s.watermark)
    requires i < |es|
    ensures HasVersion(Run(s, es).history, es[i])
  {
    var init, mid := DropLast(es), Run(s, DropLast(es));
    RunLands(s, init);
    StepLands(mid, Last(es));
    if i < |init| {
      AllLand(s, init, i);
      assert es[i] == init[i];
    }
  }
}

/** A client that is streamed or reloaded while it still has stopgap rows: its real rows are a
chain all the same, and the stopgaps lie underneath (sql/03_cdc_apply.sql,
sql/04_backfill_reset.sql).
*/
module Stopgaps {
  import opened Model
  import opened FiniteSets
  import opened Histories
  import opened ClientCdc
  import opened Lists
  import opened Streaming

  function StopgapRows(h: History): History {
    map l | l in h && l < 0 :: h[l]
  }

  /** The client without its stopgap rows. */
  function Strip(s: ClientState): ClientState {
    s.(history := RealRows(s.history))
  }

  /** The run invariant of any client: its real rows are settled, its stopgaps are not current,
      and a client with a baseline has no stopgaps. */
  ghost predicate Layered(s: ClientState, log: Log) {
    && Settled(Strip(s), log)
    && (forall l | l in s.history && l < 0 ::
          !s.history[l].isCurrent && BEGINNING_OF_TIME <= s.history[l].validFrom < END_OF_TIME
          && s.history[l].key < s.nextKey)
    && (0 in s.history ==> NoStopgap(s.history))
  }

  lemma NoStopgapIsReal(h: History)
    requires NoStopgap(h)
    ensures RealRows(h) == h
  {
  }

  /** Without stopgaps the two invariants are one. */
  lemma SettledIsLayered(s: ClientState, log: Log)
    ensures Settled(s, log) <==> Layered(s, log) && NoStopgap(s.history)
  {
    if NoStopgap(s.history) {
      NoStopgapIsReal(s.history);
    }
  }

  /** Both have the same stopgaps. */
  ghost predicate SameStopgaps(h: History, g: History) {
    forall l | l < 0 :: (l in h <==> l in g) && (l in h && l in g ==> h[l] == g[l])
  }

  lemma RealTop(h: History)
    requires RealRows(h) != map[]
    ensures h != map[] && Max(h.Keys) == Max(RealRows(h).Keys)
  {
    var m := Max(RealRows(h).Keys);
    assert m in RealRows(h);
    forall l | l in h
      ensures l <= m
    {
      assert 0 <= l ==> l in RealRows(h);
    }
  }

  lemma EndDateStopgaps(s: ClientState, log: Log, ts: int)
    requires Layered(s, log)
    ensures EndDate(s.history, ts).Keys == s.history.Keys
    ensures SameStopgaps(s.history, EndDate(s.history, ts))
    ensures RealRows(EndDate(s.history, ts)) == EndDate(RealRows(s.history), ts)
  {
  }

  lemma AboveAllRows(s: ClientState, log: Log, e: Event)
    requires Layered(s, log) && Judge(s, e) == Applied
    ensures 0 < e.lsn && forall l | l in s.history :: l < e.lsn
  {
    forall l | l in s.history
      ensures l < e.lsn
    {
      assert 0 <= l ==> l in RealRows(s.history);
    }
  }

  /** An accepted event adds its own row, so the conflict clause never fires. */
  lemma AppliedKeys(s: ClientState, log: Log, e: Event)
    requires Layered(s, log) && Judge(s, e) == Applied
    ensures Step(s, e).history.Keys == s.history.Keys + {e.lsn} && e.lsn !in s.history
  {
    AboveAllRows(s, log, e);
    assert EndDate(s.history, e.commitTs).Keys == s.history.Keys;
  }

  /** Where there is a real row the stopgaps play no part. */
  lemma StepOverRealRows(s: ClientState, log: Log, e: Event)
    requires Layered(s, log) && Judge(s, e) == Applied && RealRows(s.history) != map[]
    ensures Judge(Strip(s), e) == Applied && Strip(Step(s, e)) == Step(Strip(s), e)
    ensures SameStopgaps(s.history, Step(s, e).history)
  {
    var closed := EndDate(s.history, e.commitTs);
    EndDateStopgaps(s, log, e.commitTs);
    AboveAllRows(s, log, e);
    RealTop(s.history);
    assert RealRows(closed).Keys == RealRows(s.history).Keys;
    RealTop(closed);
    assert AppendedAttributes(closed, e.change) == AppendedAttributes(RealRows(closed), e.change);
    var v := Opened(s.nextKey, AppendedAttributes(closed, e.change).value, e);
    assert RealRows(Append(closed, e.lsn, v)) == Append(RealRows(closed), e.lsn, v);
  }

  /** Where there is none, the event becomes the first real row. */
  lemma StepOverStopgaps(s: ClientState, log: Log, e: Event)
    requires Layered(s, log) && Judge(s, e) == Applied && RealRows(s.history) == map[]
    ensures var t, attrs := Step(s, e), AppendedAttributes(s.history, e.change);
      attrs.Some? && t == ClientState(s.history[e.lsn := Opened(s.nextKey, attrs.value, e)], Some(e.lsn), s.nextKey + 1)
    ensures RealRows(Step(s, e).history).Keys == {e.lsn}
  {
    forall l | l in s.history
      ensures l < 0
    {
      assert 0 <= l ==> l in RealRows(s.history);
    }
    assert EndDate(s.history, e.commitTs) == s.history;
    AboveAllRows(s, log, e);
  }

  lemma FirstRealRowIsSettled(t: ClientState, log: Log, e: Event)
    requires LogOk(log) && Logged(log, e) && t.watermark == Some(e.lsn)
    requires t.history.Keys == {e.lsn} && t.history[e.lsn].key < t.nextKey
    requires t.history[e.lsn].validFrom == e.commitTs && t.history[e.lsn].validTo == END_OF_TIME
    requires t.history[e.lsn].isCurrent
    ensures Settled(t, log)
  {
    assert After(t.history, e.lsn) == {};
    assert Linked(t.history, e.lsn);
  }

  /** An event keeps every stopgap and the chain of the real rows. */
  lemma StepKeepsLayered(s: ClientState, log: Log, e: Event)
    requires LogOk(log) && Layered(s, log) && Logged(log, e)
    ensures Layered(Step(s, e), log) && SameStopgaps(s.history, Step(s, e).history)
  {
    if Judge(s, e) == Applied {
      if RealRows(s.history) != map[] {
        StepOverRealRows(s, log, e);
        StepKeepsSettled(Strip(s), log, e);
      } else {
        StepOverStopgaps(s, log, e);
        AboveAllRows(s, log, e);
        FirstRealRowIsSettled(Strip(Step(s, e)), log, e);
      }
      AppliedKeys(s, log, e);
      AboveAllRows(s, log, e);
      LayeredAgain(s, log, Step(s, e));
    } else {
      RejectedKeepsLayered(s, log, e);
    }
  }

  lemma RejectedKeepsLayered(s: ClientState, log: Log, e: Event)
    requires Layered(s, log) && Judge(s, e) != Applied
    ensures Step(s, e).history == s.history && Layered(Step(s, e), log)
  {
  }

  lemma LayeredAgain(s: ClientState, log: Log, t: ClientState)
    requires Layered(s, log) && Settled(Strip(t), log) && s.nextKey <= t.nextKey
    requires SameStopgaps(s.history, t.history) && (0 in s.history <==> 0 in t.history)
    ensures Layered(t, log)
  {
    forall l | l in t.history && l < 0
      ensures l in s.history && t.history[l] == s.history[l]
    {
    }
  }

  /** Streaming any list, in any order, over any stopgaps. */
  lemma {:induction false} RunKeepsLayered(s: ClientState, log: Log, es: seq<Event>)
    requires LogOk(log) && Layered(s, log) && AllLogged(log, es)
    ensures Layered(Run(s, es), log) && SameStopgaps(s.history, Run(s, es).history)
  {
    if es != [] {
      RunKeepsLayered(s, log, DropLast(es));
      StepKeepsLayered(Run(s, DropLast(es)), log, Last(es));
    }
  }

  /** Every stopgap that answers anything has ended by t. */
  ghost predicate EndedBy(h: History, t: int) {
    forall l | l in h && l < 0 && h[l].validFrom < h[l].validTo :: h[l].validTo <= t
  }

  /** Where the real rows begin. */
  function FirstStart(h: History): int
    requires RealRows(h) != map[]
  {
    h[Min(RealRows(h).Keys)].validFrom
  }

  lemma RealRowsReach(h: History, t: int)
    requires Chained(RealRows(h)) && RealRows(h) != map[] && FirstStart(h) <= t < END_OF_TIME
    ensures exists l :: 0 <= l && l in Covering(h, t)
  {
    WindowsPartition(RealRows(h), t);
    var l :| Covering(RealRows(h), t) == {l};
    assert l in Covering(RealRows(h), t);
    assert l in Covering(h, t);
  }

  /** A client's windows are disjoint if and only if its stopgaps are, and each of them had ended
      when the real rows begin. */
  lemma LayeredDisjointIff(s: ClientState, log: Log)
    requires Layered(s, log)
    ensures Disjoint(s.history) <==>
      Disjoint(StopgapRows(s.history))
      && (RealRows(s.history) != map[] ==> EndedBy(s.history, FirstStart(s.history)))
  {
    var h := s.history;
    if Disjoint(h) {
      forall l, m, t | l in Covering(StopgapRows(h), t) && m in Covering(StopgapRows(h), t)
        ensures l == m
      {
        assert l in Covering(h, t) && m in Covering(h, t);
      }
      if RealRows(h) != map[] {
        DisjointHasEnded(s, log);
      }
    } else {
      var l, m, t :| l in Covering(h, t) && m in Covering(h, t) && l < m;
      OverlapTouchesStopgap(s, log, l, m, t);
    }
  }

  lemma DisjointHasEnded(s: ClientState, log: Log)
    requires Layered(s, log) && RealRows(s.history) != map[] && Disjoint(s.history)
    ensures EndedBy(s.history, FirstStart(s.history))
  {
    var h := s.history;
    forall l | l in h && l < 0 && h[l].validFrom < h[l].validTo
      ensures h[l].validTo <= FirstStart(h)
    {
      var first := Min(RealRows(h).Keys);
      assert first in RealRows(h) && RealRows(h)[first].validFrom < END_OF_TIME;
      var t := if h[l].validFrom < FirstStart(h) then FirstStart(h) else h[l].validFrom;
      RealRowsReach(h, t);
      var m :| 0 <= m && m in Covering(h, t);
      assert l !in Covering(h, t);
    }
  }

  lemma OverlapTouchesStopgap(s: ClientState, log: Log, l: int, m: int, t: int)
    requires Layered(s, log) && l in Covering(s.history, t) && m in Covering(s.history, t) && l < m
    ensures !Disjoint(StopgapRows(s.history))
      || (RealRows(s.history) != map[] && !EndedBy(s.history, FirstStart(s.history)))
  {
    var h := s.history;
    if m < 0 {
      assert l in Covering(StopgapRows(h), t) && m in Covering(StopgapRows(h), t);
    } else {
      assert m in RealRows(h);
      if 0 <= l {
        assert l in RealRows(h);
        WindowsOrdered(RealRows(h), l, m);
      } else {
        var first := Min(RealRows(h).Keys);
        assert RealRows(h)[first].validFrom <= RealRows(h)[m].validFrom;
      }
    }
  }

  /** Event i is the first in the list above floor. */
  ghost predicate FirstAbove(es: seq<Event>, floor: int, i: nat) {
    i < |es| && floor < es[i].lsn && forall j | 0 <= j < i :: es[j].lsn <= floor
  }

  lemma AppendedFirst(h: History, g: History, n: int)
    requires h != map[] && g.Keys == h.Keys + {n} && forall l | l in h :: l < n
    ensures Min(g.Keys) == Min(h.Keys)
  {
    assert Min(h.Keys) in g;
  }

  /** Once there is a real row it stays where the real rows begin. */
  lemma StepKeepsFirst(s: ClientState, log: Log, e: Event)
    requires LogOk(log) && Layered(s, log) && Logged(log, e) && RealRows(s.history) != map[]
    ensures RealRows(Step(s, e).history) != map[] && FirstStart(Step(s, e).history) == FirstStart(s.history)
  {
    if Judge(s, e) == Applied {
      StepOverRealRows(s, log, e);
      AppliedRows(Strip(s), log, e);
      AcceptedIsNew(Strip(s), log, e);
      AppendedFirst(RealRows(s.history), RealRows(Step(s, e).history), e.lsn);
    }
  }

  lemma {:induction false} RunKeepsFirst(s: ClientState, log: Log, es: seq<Event>)
    requires LogOk(log) && Layered(s, log) && AllLogged(log, es) && RealRows(s.history) != map[]
    ensures RealRows(Run(s, es).history) != map[] && FirstStart(Run(s, es).history) == FirstStart(s.history)
  {
    if es != [] {
      RunKeepsFirst(s, log, DropLast(es));
      RunKeepsLayered(s, log, DropLast(es));
      StepKeepsFirst(Run(s, DropLast(es)), log, Last(es));
    }
  }

  /** Over stopgaps alone, the real rows begin with the first event above the watermark. */
  lemma RealRowsBegin(s: ClientState, log: Log, es: seq<Event>, i: nat)
    requires LogOk(log) && Layered(s, log) && AllLogged(log, es)
    requires RealRows(s.history) == map[] && s.history != map[] && FirstAbove(es, Floor(s.watermark), i)
    ensures RealRows(Run(s, es).history) != map[] && FirstStart(Run(s, es).history) == es[i].commitTs
  {
    var mid, rest := Run(s, es[..i]), es[i + 1..];
    assert es[..i + 1] + rest == es;
    RunConcat(s, es[..i + 1], rest);
    RunOneMore(s, es, i);
    NothingAbove(s, es[..i]);
    RunKeepsLayered(s, log, es[..i]);
    StepOverStopgaps(mid, log, es[i]);
    assert Min({es[i].lsn}) == es[i].lsn;
    StepKeepsLayered(mid, log, es[i]);
    RunKeepsFirst(Step(mid, es[i]), log, rest);
  }

  lemma {:induction false} NothingAboveFloor(es: seq<Event>, floor: int)
    requires forall i: nat :: !FirstAbove(es, floor, i)
    ensures forall j | 0 <= j < |es| :: es[j].lsn <= floor
  {
    if es != [] {
      var init := DropLast(es);
      forall i: nat
        ensures !FirstAbove(init, floor, i)
      {
        assert FirstAbove(init, floor, i) ==> FirstAbove(es, floor, i);
      }
      NothingAboveFloor(init, floor);
      assert !FirstAbove(es, floor, |init|);
    }
  }

  lemma SameStopgapsSameEnds(h: History, g: History, t: int)
    requires SameStopgaps(h, g)
    ensures StopgapRows(h) == StopgapRows(g) && (EndedBy(h, t) <==> EndedBy(g, t))
  {
    assert forall l | l in h && l < 0 :: l in g && g[l] == h[l];
    assert forall l | l in g && l < 0 :: l in h && g[l] == h[l];
  }

  /** Streaming over stopgaps: after any list of arrivals the windows are disjoint if and only if
      they were before and, where the client had no real row yet, every stopgap had ended by the
      commit time of the first event above the watermark. */
  lemma StreamKeepsDisjointIff(s: ClientState, log: Log, es: seq<Event>)
    requires LogOk(log) && Layered(s, log) && AllLogged(log, es)
    ensures Disjoint(Run(s, es).history) <==>
      Disjoint(s.history)
      && (RealRows(s.history) == map[] ==>
            forall i: nat | FirstAbove(es, Floor(s.watermark), i) :: EndedBy(s.history, es[i].commitTs))
  {
    var t := Run(s, es);
    RunKeepsLayered(s, log, es);
    LayeredDisjointIff(s, log);
    LayeredDisjointIff(t, log);
    SameStopgapsSameEnds(s.history, t.history, 0);
    if RealRows(s.history) != map[] {
      RunKeepsFirst(s, log, es);
      SameStopgapsSameEnds(s.history, t.history, FirstStart(s.history));
    } else if s.history != map[] {
      if i: nat :| FirstAbove(es, Floor(s.watermark), i) {
        RealRowsBegin(s, log, es, i);
        assert forall j: nat | FirstAbove(es, Floor(s.watermark), j) :: j == i;
        SameStopgapsSameEnds(s.history, t.history, es[i].commitTs);
      } else {
        NothingAboveFloor(es, Floor(s.watermark));
        NothingAbove(s, es);
      }
    } else {
      assert forall l | l in t.history :: 0 <= l;
    }
  }
}

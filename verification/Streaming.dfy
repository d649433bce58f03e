/** Streaming: events handed over in arrival order, the watermark as the only guard
(scd2_apply in layer3_warehouse.py, apply_cdc_event in sql/03_cdc_apply.sql). */
module Streaming {
  import opened Model
  import opened FiniteSets
  import opened Histories
  import opened ClientCdc
  import opened Lists
  import opened Rewind

  /** Nothing has been applied yet, or there is a row. */
  ghost predicate RowsOrFresh(s: ClientState) {
    s.history != map[] || Floor(s.watermark) == 0
  }

  /** How many events the delete guard holds back before the watermark sees any. */
  function LeadingDeletes(h: History, es: seq<Event>): nat {
    if h != map[] || es == [] || !es[0].change.Delete? then 0
    else 1 + LeadingDeletes(h, es[1..])
  }

  lemma {:induction false} LeadingDeletesSpan(h: History, es: seq<Event>)
    ensures LeadingDeletes(h, es) <= |es|
    ensures forall i | 0 <= i < LeadingDeletes(h, es) :: es[i].change.Delete?
    ensures LeadingDeletes(h, es) < |es| && h == map[] ==> !es[LeadingDeletes(h, es)].change.Delete?
    ensures h != map[] ==> LeadingDeletes(h, es) == 0
  {
    if h == map[] && es != [] && es[0].change.Delete? {
      LeadingDeletesSpan(h, es[1..]);
    }
  }

  /** Strictly above the starting watermark and above everything the gate saw before. */
  ghost predicate StrictMaximum(s: ClientState, es: seq<Event>, i: nat)
    requires i < |es|
  {
    && Floor(s.watermark) < es[i].lsn
    && forall j | LeadingDeletes(s.history, es) <= j < i :: es[j].lsn < es[i].lsn
  }

  /** floor is the largest of the starting watermark and what the gate saw before event n. */
  ghost predicate RunningMaximum(s: ClientState, es: seq<Event>, n: nat, floor: int)
    requires n <= |es|
  {
    && Floor(s.watermark) <= floor
    && (forall j | LeadingDeletes(s.history, es) <= j < n :: es[j].lsn <= floor)
    && (floor == Floor(s.watermark)
        || exists j :: LeadingDeletes(s.history, es) <= j < n && es[j].lsn == floor)
  }

  lemma RunningMaximumGrows(s: ClientState, es: seq<Event>, n: nat, floor: int)
    requires n < |es| && RunningMaximum(s, es, n, floor) && LeadingDeletes(s.history, es) <= n
    ensures RunningMaximum(s, es, n + 1, if floor < es[n].lsn then es[n].lsn else floor)
  {
  }

  /** What one event does to the watermark. */
  lemma GateStep(s: ClientState, e: Event)
    requires 0 < e.lsn
    ensures Judge(s, e) == Rejected(DeleteWithNoBaseline) ==> Step(s, e) == s
    ensures Judge(s, e) != Rejected(DeleteWithNoBaseline) ==>
      Floor(Step(s, e).watermark) == if Floor(s.watermark) < e.lsn then e.lsn else Floor(s.watermark)
    ensures Judge(s, e) == Applied ==> Step(s, e).history != map[]
    ensures s.history != map[] ==> Step(s, e).history != map[]
  {
    if Judge(s, e) == Applied && s.history != map[] {
      var l := Pick(s.history.Keys);
      assert l in Step(s, e).history;
    } else if Judge(s, e) == Applied {
      assert e.lsn in Step(s, e).history;
    }
  }

  /** Past the leading deletes the client has rows. */
  lemma {:induction false} GateOpens(s: ClientState, log: Log, es: seq<Event>, n: nat)
    requires LogOk(log) && AllLogged(log, es) && RowsOrFresh(s) && n <= |es|
    ensures n <= LeadingDeletes(s.history, es) ==> Run(s, es[..n]) == s
    ensures LeadingDeletes(s.history, es) < n ==> Run(s, es[..n]).history != map[]
  {
    LeadingDeletesSpan(s.history, es);
    if n == 0 {
      assert es[..n] == [];
    } else {
      GateOpens(s, log, es, n - 1);
      RunOneMore(s, es, n - 1);
      assert Logged(log, es[n - 1]);
      GateStep(Run(s, es[..n - 1]), es[n - 1]);
    }
  }

  /** The watermark after n events is the running maximum. */
  lemma {:induction false} WatermarkIsRunningMaximum(s: ClientState, log: Log, es: seq<Event>, n: nat)
    requires LogOk(log) && AllLogged(log, es) && RowsOrFresh(s) && n <= |es|
    ensures RunningMaximum(s, es, n, Floor(Run(s, es[..n]).watermark))
  {
    if n == 0 {
      assert es[..n] == [];
    } else {
      var mid := Run(s, es[..n - 1]);
      WatermarkIsRunningMaximum(s, log, es, n - 1);
      GateOpens(s, log, es, n - 1);
      GateOpens(s, log, es, n);
      RunOneMore(s, es, n - 1);
      assert Logged(log, es[n - 1]);
      GateStep(mid, es[n - 1]);
      if LeadingDeletes(s.history, es) < n {
        HeardAfterDeletes(s, es, n - 1);
        RunningMaximumGrows(s, es, n - 1, Floor(mid.watermark));
      }
    }
  }

  lemma HeardAfterDeletes(s: ClientState, es: seq<Event>, n: nat)
    requires n < |es| && LeadingDeletes(s.history, es) <= n
    ensures LeadingDeletes(s.history, es) == n && s.history == map[] ==> !es[n].change.Delete?
  {
    LeadingDeletesSpan(s.history, es);
  }

  /** Streaming applies exactly the strict running maxima.  Of the rest, the deletes that
      find no row are quarantined as such and every other event as stale. */
  lemma AppliesStrictMaxima(s: ClientState, log: Log, es: seq<Event>, i: nat)
    requires LogOk(log) && AllLogged(log, es) && RowsOrFresh(s) && i < |es|
    ensures Judge(Run(s, es[..i]), es[i]) ==
      if i < LeadingDeletes(s.history, es) then Rejected(DeleteWithNoBaseline)
      else if StrictMaximum(s, es, i) then Applied
      else Rejected(StaleLsn)
  {
    LeadingDeletesSpan(s.history, es);
    GateOpens(s, log, es, i);
    WatermarkIsRunningMaximum(s, log, es, i);
  }

  /** The events of a list that are applied, in order. */
  function Accepted(s: ClientState, es: seq<Event>): seq<Event> {
    if es == [] then []
    else if Judge(Run(s, DropLast(es)), Last(es)) == Applied then Accepted(s, DropLast(es)) + [Last(es)]
    else Accepted(s, DropLast(es))
  }

  /** Rejected events leave no trace in the client's rows and watermark: the accepted ones
      alone give the same state. */
  lemma {:induction false} AcceptedDecide(s: ClientState, log: Log, es: seq<Event>)
    requires LogOk(log) && AllLogged(log, es)
    ensures Run(s, es) == Run(s, Accepted(s, es))
  {
    if es != [] {
      var init := DropLast(es);
      AcceptedDecide(s, log, init);
      assert Logged(log, Last(es));
      GateStep(Run(s, init), Last(es));
      if Judge(Run(s, init), Last(es)) == Applied {
        assert DropLast(Accepted(s, es)) == Accepted(s, init);
      }
    }
  }

  /** The accepted events ascend, above the starting watermark and up to the final one. */
  lemma {:induction false} AcceptedAscend(s: ClientState, log: Log, es: seq<Event>)
    requires LogOk(log) && AllLogged(log, es)
    ensures AscendingEvents(Accepted(s, es))
    ensures LsnsWithin(Accepted(s, es), Floor(s.watermark), Floor(Run(s, es).watermark))
  {
    if es != [] {
      var init := DropLast(es);
      AcceptedAscend(s, log, init);
      assert Logged(log, Last(es));
      GateStep(Run(s, init), Last(es));
    }
  }

  ghost predicate LsnsWithin(es: seq<Event>, above: int, upTo: int) {
    above <= upTo && forall i | 0 <= i < |es| :: above < es[i].lsn <= upTo
  }

  /** What a reader of the current row sees, the values a tombstone carries over excepted. */
  ghost predicate SameCurrentState(g: History, h: History)
    requires g != map[] && h != map[]
  {
    var l, m := Max(g.Keys), Max(h.Keys);
    && l == m
    && g[l].validFrom == h[m].validFrom
    && g[l].attrs.status == h[m].attrs.status
    && g[l].isDeleted == h[m].isDeleted
    && (!g[l].isDeleted ==> g[l].attrs == h[m].attrs)
  }

  /** The event with the highest lsn decides the current row, wherever it stands. */
  lemma {:induction false} TopEventIsCurrent(s: ClientState, log: Log, es: seq<Event>, top: Event)
    requires LogOk(log) && Settled(s, log) && AllLogged(log, es) && s.history != map[]
    requires top in es && Floor(s.watermark) < top.lsn
    requires forall e | e in es :: e.lsn <= top.lsn && (e.lsn == top.lsn ==> e == top)
    ensures var t := Run(s, es);
      && t.watermark == Some(top.lsn)
      && t.history != map[] && Max(t.history.Keys) == top.lsn
      && t.history[top.lsn].validFrom == top.commitTs
      && t.history[top.lsn].isDeleted == top.change.Delete?
      && (if top.change.Delete? then t.history[top.lsn].attrs.status == "deleted"
          else t.history[top.lsn].attrs == top.change.after)
  {
    var init, last := DropLast(es), Last(es);
    Snoc(es);
    RunKeepsSettled(s, log, init);
    if top in init {
      TopEventIsCurrent(s, log, init, top);
      assert last in es;
    } else {
      assert last == top;
      BoundedWatermark(s, log, init, top.lsn);
      AppliedRows(Run(s, init), log, top);
      AcceptedIsNew(Run(s, init), log, top);
    }
  }

  lemma {:induction false} BoundedWatermark(s: ClientState, log: Log, es: seq<Event>, bound: int)
    requires Floor(s.watermark) < bound && s.history != map[]
    requires forall e | e in es :: e.lsn < bound
    ensures Floor(Run(s, es).watermark) < bound && Run(s, es).history != map[]
  {
    if es != [] {
      Snoc(es);
      BoundedWatermark(s, log, DropLast(es), bound);
    }
  }

  lemma {:induction false} NothingAbove(s: ClientState, es: seq<Event>)
    requires s.history != map[] && forall e | e in es :: e.lsn <= Floor(s.watermark)
    ensures Run(s, es).history == s.history && Floor(Run(s, es).watermark) == Floor(s.watermark)
  {
    if es != [] {
      Snoc(es);
      NothingAbove(s, DropLast(es));
    }
  }

  lemma {:induction false} TopExists(es: seq<Event>)
    requires es != []
    ensures exists top :: top in es && forall e | e in es :: e.lsn <= top.lsn
  {
    Snoc(es);
    var init, last := DropLast(es), Last(es);
    if init == [] {
      assert forall e | e in es :: e.lsn <= last.lsn;
    } else {
      TopExists(init);
      var top :| top in init && forall e | e in init :: e.lsn <= top.lsn;
      var best := if top.lsn < last.lsn then last else top;
      assert best in es && forall e | e in es :: e.lsn <= best.lsn;
    }
  }

  /** Order and repetition do not matter for the current state: two arrival lists of the
      same events, the lsn-ordered one among them, end alike. */
  lemma CurrentStateIgnoresOrder(s: ClientState, log: Log, a: seq<Event>, b: seq<Event>)
    requires LogOk(log) && Settled(s, log) && s.history != map[]
    requires AllLogged(log, a) && AllLogged(log, b)
    requires forall e :: e in a <==> e in b
    requires forall e, f | e in a && f in a && e.lsn == f.lsn :: e == f
    ensures Run(s, a).history != map[] && Run(s, b).history != map[]
    ensures SameCurrentState(Run(s, a).history, Run(s, b).history)
    ensures Floor(Run(s, a).watermark) == Floor(Run(s, b).watermark)
  {
    if forall e | e in a :: e.lsn <= Floor(s.watermark) {
      NothingAbove(s, a);
      NothingAbove(s, b);
    } else {
      TopExists(a);
      var top :| top in a && forall e | e in a :: e.lsn <= top.lsn;
      TopEventIsCurrent(s, log, a, top);
      TopEventIsCurrent(s, log, b, top);
    }
  }

  /** The lookup at t returns the same rows before and after, values and keys included. */
  ghost predicate SameAnswer(g: History, h: History, t: int) {
    && Covering(g, t) == Covering(h, t)
    && forall l | l in Covering(g, t) ::
         g[l].key == h[l].key && g[l].attrs == h[l].attrs && g[l].isDeleted == h[l].isDeleted
  }

  /** An event leaves the answer at every instant before its commit time alone. */
  lemma StepKeepsPast(s: ClientState, log: Log, e: Event, t: int)
    requires LogOk(log) && Settled(s, log) && Logged(log, e) && t < e.commitTs
    ensures SameAnswer(s.history, Step(s, e).history, t)
  {
    if Judge(s, e) == Applied {
      AppliedRows(s, log, e);
      var h, g := s.history, Step(s, e).history;
      forall l | l in h
        ensures Covers(g[l], t) == Covers(h[l], t)
      {
        assert Linked(h, l);
      }
      assert Covering(g, t) == Covering(h, t);
    }
  }

  /** Once a version has started, no later streaming changes any answer before its start. */
  lemma {:induction false} PastIsStable(s: ClientState, log: Log, es: seq<Event>, started: int, t: int)
    requires LogOk(log) && Settled(s, log) && AllLogged(log, es)
    requires started in s.history && t < s.history[started].validFrom
    ensures SameAnswer(s.history, Run(s, es).history, t)
    ensures started in Run(s, es).history && Run(s, es).history[started].validFrom == s.history[started].validFrom
  {
    if es != [] {
      var mid := Run(s, DropLast(es));
      PastIsStable(s, log, DropLast(es), started, t);
      RunKeepsSettled(s, log, DropLast(es));
      assert Logged(log, Last(es));
      if Judge(mid, Last(es)) == Applied {
        AcceptedIsNew(mid, log, Last(es));
        assert mid.history[started].validFrom == StartOf(log, started);
        StepKeepsPast(mid, log, Last(es), t);
        AppliedRows(mid, log, Last(es));
      }
    }
  }
}

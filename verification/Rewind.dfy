/** reset_client_for_reload takes back exactly what the events at or above the reset point
did (sql/04_backfill_reset.sql). */
module Rewind {
  import opened Model
  import opened FiniteSets
  import opened Histories
  import opened Lists
  import opened ClientCdc

  ghost predicate AscendingEvents(es: seq<Event>) {
    forall i, j | 0 <= i < j < |es| :: es[i].lsn < es[j].lsn
  }

  /** The events below an lsn, in their order. */
  function EventsBelow(es: seq<Event>, lsn: int): seq<Event> {
    if es == [] then []
    else if Last(es).lsn < lsn then EventsBelow(DropLast(es), lsn) + [Last(es)]
    else EventsBelow(DropLast(es), lsn)
  }

  lemma {:induction false} AllBelow(es: seq<Event>, lsn: int)
    requires forall i | 0 <= i < |es| :: es[i].lsn < lsn
    ensures EventsBelow(es, lsn) == es
  {
    if es != [] {
      var init := DropLast(es);
      AllBelow(init, lsn);
      Snoc(es);
    }
  }

  ghost predicate RowsBelow(h: History, lsn: int) {
    forall l | l in h :: l < lsn
  }

  /** Resetting above every row does not change a chain. */
  lemma ResetAboveIsIdle(s: ClientState, from: int)
    requires Chained(s.history) && RowsBelow(s.history, from)
    ensures Reset(s, from).history == s.history
  {
    assert Below(s.history, from) == s.history;
    if s.history != map[] {
      var m := Max(s.history.Keys);
      assert After(s.history, m) == {};
      assert Linked(s.history, m);
    }
  }

  /** Cut off below the new row, an extended history and the original one reopen alike. */
  lemma CutForgetsExtension(h: History, g: History, n: int, from: int)
    requires Extends(h, g, n) && from <= n
    ensures Reactivate(Below(g, from)) == Reactivate(Below(h, from))
  {
    var a, b := Below(h, from), Below(g, from);
    assert b.Keys == a.Keys;
    if a != map[] {
      var m := Max(a.Keys);
      var x, y := Reactivate(a), Reactivate(b);
      forall l | l in a
        ensures x[l] == y[l]
      {
        assert g[l].key == h[l].key;
        if l != m {
          assert m in After(h, l);
        }
      }
    }
  }

  /** Resetting forgets an event at or above the reset point. */
  lemma ResetForgets(s: ClientState, log: Log, e: Event, from: int)
    requires LogOk(log) && Settled(s, log) && from <= e.lsn
    ensures Reset(Step(s, e), from).history == Reset(s, from).history
  {
    if Judge(s, e) == Applied {
      AppliedRows(s, log, e);
      CutForgetsExtension(s.history, Step(s, e).history, e.lsn, from);
    }
  }

  /** Exact rewind: after applying events in ascending lsn order, a reset at any lsn above
      the starting rows leaves the rows - windows, flags and surrogate keys included - that
      applying only the events below that lsn would have left. */
  lemma {:induction false} ExactRewind(s: ClientState, log: Log, es: seq<Event>, from: int)
    requires LogOk(log) && Settled(s, log) && RowsBelow(s.history, from)
    requires AllLogged(log, es) && AscendingEvents(es)
    ensures Reset(Run(s, es), from).history == Run(s, EventsBelow(es, from)).history
    ensures Run(s, es).watermark != None ==> Reset(Run(s, es), from).watermark == Some(from - 1)
  {
    if es == [] {
      ResetAboveIsIdle(s, from);
    } else if Last(es).lsn < from {
      AllBelow(es, from);
      RunKeepsSettled(s, log, es);
      RunRowsBelow(s, es, from);
      ResetAboveIsIdle(Run(s, es), from);
    } else {
      var init := DropLast(es);
      ExactRewind(s, log, init, from);
      RunKeepsSettled(s, log, init);
      ResetForgets(Run(s, init), log, Last(es), from);
    }
  }

  lemma {:induction false} RunRowsBelow(s: ClientState, es: seq<Event>, lsn: int)
    requires RowsBelow(s.history, lsn)
    requires forall i | 0 <= i < |es| :: es[i].lsn < lsn
    ensures RowsBelow(Run(s, es).history, lsn)
  {
    if es != [] {
      RunRowsBelow(s, DropLast(es), lsn);
    }
  }

  /** A list of events at or above the reset point, in any order at all, is undone
      completely. */
  lemma {:induction false} ResetUndoesRun(s: ClientState, log: Log, es: seq<Event>, from: int)
    requires LogOk(log) && Settled(s, log) && RowsBelow(s.history, from)
    requires AllLogged(log, es) && forall i | 0 <= i < |es| :: from <= es[i].lsn
    ensures Reset(Run(s, es), from).history == s.history
  {
    if es == [] {
      ResetAboveIsIdle(s, from);
    } else {
      ResetUndoesRun(s, log, DropLast(es), from);
      RunKeepsSettled(s, log, DropLast(es));
      ResetForgets(Run(s, DropLast(es)), log, Last(es), from);
    }
  }

  lemma ReopenedRow(h: History, from: int, l: int)
    requires Chained(h) && l in Reactivate(Below(h, from))
    ensures Linked(Reactivate(Below(h, from)), l)
  {
    var kept, g := Below(h, from), Reactivate(Below(h, from));
    var m := Max(kept.Keys);
    if l == m {
      assert After(g, l) == {};
    } else {
      assert m in After(g, l) && m in After(h, l) && Linked(h, l);
      var n := Min(After(h, l));
      assert n in After(g, l);
      forall x | x in After(g, l)
        ensures n <= x
      {
        assert x in After(h, l);
      }
    }
  }

  /** A reset puts a chain back in place below the reset point. */
  lemma ResetKeepsSettled(s: ClientState, log: Log, from: int)
    requires Settled(s, log) && 0 < from
    ensures Settled(Reset(s, from), log)
  {
    var g := Reset(s, from).history;
    forall l | l in g
      ensures Linked(g, l)
    {
      ReopenedRow(s.history, from, l);
    }
    forall l | l in g
      ensures l in s.history && l < from
      ensures g[l].validFrom == s.history[l].validFrom && g[l].key == s.history[l].key
    {
    }
    ReopenedChain(s.history, g);
  }

  lemma ReopenedChain(h: History, g: History)
    requires Chained(h) && g.Keys <= h.Keys
    requires forall l | l in g :: Linked(g, l)
    requires forall l | l in g :: g[l].validFrom == h[l].validFrom
    ensures Chained(g)
  {
  }

  /** The highest row is open, the others are closed. */
  ghost predicate OnlyTopOpen(h: History) {
    forall l | l in h ::
      if l == Max(h.Keys) then h[l].isCurrent && h[l].validTo == END_OF_TIME else !h[l].isCurrent
  }

  /** Below from, h holds the rows of p, the highest of them closed or not. */
  ghost predicate TailOver(p: History, h: History, from: int) {
    && (forall l :: l in p <==> l in h && l < from)
    && forall l | l in p ::
         p[l] == if l == Max(p.Keys) then h[l].(isCurrent := true, validTo := END_OF_TIME) else h[l]
  }

  lemma StepKeepsTail(p: History, s: ClientState, e: Event, from: int)
    requires OnlyTopOpen(p) && TailOver(p, s.history, from) && from <= e.lsn
    ensures TailOver(p, Step(s, e).history, from)
  {
    var g := Step(s, e).history;
    forall l | l in p
      ensures l in g && p[l] == if l == Max(p.Keys) then g[l].(isCurrent := true, validTo := END_OF_TIME) else g[l]
    {
      assert l in s.history && l < from;
    }
  }

  lemma {:induction false} RunKeepsTail(p: History, s: ClientState, es: seq<Event>, from: int)
    requires OnlyTopOpen(p) && TailOver(p, s.history, from) && forall i | 0 <= i < |es| :: from <= es[i].lsn
    ensures TailOver(p, Run(s, es).history, from)
  {
    if es != [] {
      RunKeepsTail(p, s, DropLast(es), from);
      StepKeepsTail(p, Run(s, DropLast(es)), Last(es), from);
    }
  }

  /** A second reset undoes the replay that followed the first, whatever rows they started from. */
  lemma ReplayIsUndone(s: ClientState, es: seq<Event>, from: int)
    requires OnlyTopOpen(s.history) && RowsBelow(s.history, from)
    requires forall i | 0 <= i < |es| :: from <= es[i].lsn
    ensures Reset(Run(s, es), from).history == s.history
  {
    var p, h := s.history, Run(s, es).history;
    RunKeepsTail(p, s, es, from);
    forall l
      ensures l in Below(h, from) <==> l in p
    {
      assert l in p <==> l in h && l < from;
    }
    assert Below(h, from).Keys == p.Keys;
    if p != map[] {
      assert Reactivate(Below(h, from)) == p;
    }
  }
}

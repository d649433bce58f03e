/** The values a tombstone carries over when events arrive in any order (sql/03_cdc_apply.sql). */
module Tombstones {
  import opened Model
  import opened FiniteSets
  import opened ClientCdc
  import opened Lists
  import opened Rewind
  import opened Streaming

  /** The values in force for a client with rows. */
  function TopValues(s: ClientState): Attributes
    requires s.history != map[]
  {
    s.history[Max(s.history.Keys)].attrs
  }

  /** Event i is an insert or update above the starting watermark and everything before it. */
  ghost predicate PutApplies(s: ClientState, es: seq<Event>, i: nat)
    requires i < |es|
  {
    !es[i].change.Delete? && StrictMaximum(s, es, i)
  }

  /** The values of the last such event in the list; the starting row's where there is none. */
  ghost function LastPut(s: ClientState, es: seq<Event>): Attributes
    requires s.history != map[]
  {
    if es == [] then TopValues(s)
    else if PutApplies(s, es, |es| - 1) then Last(es).change.after
    else LastPut(s, DropLast(es))
  }

  lemma PutAppliesInPrefix(s: ClientState, es: seq<Event>, n: nat, i: nat)
    requires s.history != map[] && i < n <= |es|
    ensures PutApplies(s, es[..n], i) <==> PutApplies(s, es, i)
  {
    LeadingDeletesSpan(s.history, es);
    LeadingDeletesSpan(s.history, es[..n]);
  }

  /** LastPut, read off the list: the event at p, when nothing applicable follows. */
  lemma {:induction false} LastPutIs(s: ClientState, es: seq<Event>, p: nat)
    requires s.history != map[] && p < |es| && PutApplies(s, es, p)
    requires forall j | p < j < |es| :: !PutApplies(s, es, j)
    ensures LastPut(s, es) == es[p].change.after
  {
    if p < |es| - 1 {
      PutAppliesInPrefix(s, es, |es| - 1, p);
      forall j | p < j < |es| - 1
        ensures !PutApplies(s, DropLast(es), j)
      {
        PutAppliesInPrefix(s, es, |es| - 1, j);
      }
      LastPutIs(s, DropLast(es), p);
    }
  }

  lemma {:induction false} NoPut(s: ClientState, es: seq<Event>)
    requires s.history != map[] && forall j | 0 <= j < |es| :: !PutApplies(s, es, j)
    ensures LastPut(s, es) == TopValues(s)
  {
    if es != [] {
      forall j | 0 <= j < |es| - 1
        ensures !PutApplies(s, DropLast(es), j)
      {
        PutAppliesInPrefix(s, es, |es| - 1, j);
      }
      NoPut(s, DropLast(es));
    }
  }

  /** What an applied event leaves in force. */
  lemma AppliedValues(s: ClientState, log: Log, e: Event)
    requires Settled(s, log) && s.history != map[] && Judge(s, e) == Applied
    ensures Step(s, e).history != map[] && Max(Step(s, e).history.Keys) == e.lsn
    ensures TopValues(Step(s, e)) == if e.change.Delete? then Carried(TopValues(s)) else e.change.after
  {
    AppliedRows(s, log, e);
    AcceptedIsNew(s, log, e);
    assert e.lsn in Step(s, e).history.Keys;
  }

  /** After any arrivals the values in force, a tombstone's included, are those of the last insert or
      update above everything before it; category and balance pass through every delete. */
  lemma {:induction false} ValuesInForce(s: ClientState, log: Log, es: seq<Event>)
    requires LogOk(log) && Settled(s, log) && AllLogged(log, es) && s.history != map[]
    ensures Run(s, es).history != map[] && Carried(TopValues(Run(s, es))) == Carried(LastPut(s, es))
  {
    if es != [] {
      var init, n := DropLast(es), |es| - 1;
      var mid := Run(s, init);
      ValuesInForce(s, log, init);
      RunKeepsSettled(s, log, init);
      assert es[..n] == init && Logged(log, Last(es));
      LeadingDeletesSpan(s.history, es);
      AppliesStrictMaxima(s, log, es, n);
      GateStep(mid, Last(es));
      if Judge(mid, Last(es)) == Applied {
        AppliedValues(mid, log, Last(es));
      }
    }
  }

  /** When the highest event is a delete, its row copies the highest row there was at its first
      arrival; what arrives later, lower or repeated, leaves it alone. */
  lemma TombstoneCopiesPrefix(s: ClientState, log: Log, es: seq<Event>, k: nat)
    requires LogOk(log) && Settled(s, log) && AllLogged(log, es) && s.history != map[]
    requires k < |es| && es[k].change.Delete? && Floor(s.watermark) < es[k].lsn
    requires forall e | e in es :: e.lsn <= es[k].lsn
    requires forall j | 0 <= j < k :: es[j].lsn < es[k].lsn
    ensures Run(s, es[..k]).history != map[] && es[k].lsn in Run(s, es).history
    ensures Run(s, es).history[es[k].lsn].attrs == Carried(TopValues(Run(s, es[..k])))
    ensures Carried(TopValues(Run(s, es[..k]))) == Carried(LastPut(s, es[..k]))
  {
    SplitAt(es, k);
    TombstoneStays(s, log, es[..k + 1], es[k + 1..]);
    ValuesInForce(s, log, es[..k]);
  }

  lemma SplitAt(es: seq<Event>, k: nat)
    requires k < |es|
    ensures es[..k + 1] + es[k + 1..] == es && DropLast(es[..k + 1]) == es[..k] && Last(es[..k + 1]) == es[k]
    ensures forall e | e in es[k + 1..] :: e in es
  {
  }

  /** Nothing that arrives after the highest event touches its row. */
  lemma TombstoneStays(s: ClientState, log: Log, upTo: seq<Event>, rest: seq<Event>)
    requires LogOk(log) && Settled(s, log) && AllLogged(log, upTo) && s.history != map[]
    requires upTo != [] && Last(upTo).change.Delete? && Floor(s.watermark) < Last(upTo).lsn
    requires forall j | 0 <= j < |upTo| - 1 :: upTo[j].lsn < Last(upTo).lsn
    requires forall e | e in rest :: e.lsn <= Last(upTo).lsn
    ensures var t, before := Run(s, upTo + rest), Run(s, DropLast(upTo));
      && before.history != map[] && t.history != map[] && Max(t.history.Keys) == Last(upTo).lsn
      && TopValues(t) == Carried(TopValues(before))
  {
    TombstoneOnArrival(s, log, upTo);
    RunConcat(s, upTo, rest);
    NothingAbove(Run(s, upTo), rest);
  }

  lemma TombstoneOnArrival(s: ClientState, log: Log, es: seq<Event>)
    requires LogOk(log) && Settled(s, log) && AllLogged(log, es) && s.history != map[]
    requires es != [] && Last(es).change.Delete? && Floor(s.watermark) < Last(es).lsn
    requires forall j | 0 <= j < |es| - 1 :: es[j].lsn < Last(es).lsn
    ensures var t, before := Run(s, es), Run(s, DropLast(es));
      && before.history != map[] && t.history != map[] && Max(t.history.Keys) == Last(es).lsn
      && Floor(t.watermark) == Last(es).lsn && TopValues(t) == Carried(TopValues(before))
  {
    var before := DropLast(es);
    RunKeepsSettled(s, log, before);
    BoundedWatermark(s, log, before, Last(es).lsn);
    AppliedValues(Run(s, before), log, Last(es));
  }

  /** u is the highest insert or update above the watermark. */
  ghost predicate HighestPut(s: ClientState, es: seq<Event>, u: Event) {
    && u in es && !u.change.Delete? && Floor(s.watermark) < u.lsn
    && forall e | e in es && !e.change.Delete? :: e.lsn <= u.lsn && (e.lsn == u.lsn ==> e == u)
  }

  /** The highest insert or update is itself applied: nothing higher - such as a delete - arrives
      ahead of it. */
  ghost predicate ArrivesInTime(s: ClientState, es: seq<Event>, u: Event) {
    exists i: nat :: i < |es| && es[i] == u && PutApplies(s, es, i)
  }

  lemma InTimeDecides(s: ClientState, es: seq<Event>, u: Event)
    requires s.history != map[] && HighestPut(s, es, u) && ArrivesInTime(s, es, u)
    ensures LastPut(s, es) == u.change.after
  {
    var i: nat :| i < |es| && es[i] == u && PutApplies(s, es, i);
    LeadingDeletesSpan(s.history, es);
    forall j | i < j < |es|
      ensures !PutApplies(s, es, j)
    {
      assert es[j] in es;
    }
    LastPutIs(s, es, i);
  }

  /** In lsn order it always arrives in time. */
  lemma AscendingIsInTime(s: ClientState, es: seq<Event>, u: Event)
    requires s.history != map[] && AscendingEvents(es) && HighestPut(s, es, u)
    ensures ArrivesInTime(s, es, u)
  {
    var i :| 0 <= i < |es| && es[i] == u;
    assert PutApplies(s, es, i);
  }

  /** Arrival order and lsn order leave the same category and balance in force, in a tombstone as in
      any other row, if and only if the highest insert or update arrives ahead of every higher
      delete, or the one applied last in its stead carries the same values. */
  lemma ValuesAgreeIff(s: ClientState, log: Log, arrivals: seq<Event>, ordered: seq<Event>, u: Event)
    requires LogOk(log) && Settled(s, log) && s.history != map[]
    requires AllLogged(log, arrivals) && AllLogged(log, ordered) && AscendingEvents(ordered)
    requires forall e :: e in arrivals <==> e in ordered
    requires HighestPut(s, arrivals, u)
    ensures Run(s, arrivals).history != map[] && Run(s, ordered).history != map[]
    ensures Carried(TopValues(Run(s, arrivals))) == Carried(TopValues(Run(s, ordered))) <==>
      ArrivesInTime(s, arrivals, u) || Carried(LastPut(s, arrivals)) == Carried(u.change.after)
  {
    ValuesInForce(s, log, arrivals);
    ValuesInForce(s, log, ordered);
    assert HighestPut(s, ordered, u);
    AscendingIsInTime(s, ordered, u);
    InTimeDecides(s, ordered, u);
    if ArrivesInTime(s, arrivals, u) {
      InTimeDecides(s, arrivals, u);
    }
  }

  /** Without an insert or update above the watermark the starting values stay in any order. */
  lemma StartingValuesStay(s: ClientState, log: Log, es: seq<Event>)
    requires LogOk(log) && Settled(s, log) && AllLogged(log, es) && s.history != map[]
    requires forall e | e in es && Floor(s.watermark) < e.lsn :: e.change.Delete?
    ensures Run(s, es).history != map[] && Carried(TopValues(Run(s, es))) == Carried(TopValues(s))
  {
    ValuesInForce(s, log, es);
    forall j | 0 <= j < |es|
      ensures !PutApplies(s, es, j)
    {
      assert es[j] in es;
    }
    NoPut(s, es);
  }
}

/** What apply_cdc_event and reset_client_for_reload do to one client
(sql/03_cdc_apply.sql, sql/04_backfill_reset.sql), and the replay loop around the first
(scd2_apply in layer3_warehouse.py, historical_reload in reload.py).
*/
module ClientCdc {
  import opened Model
  import opened FiniteSets
  import opened Histories
  import opened Lists

  /** Everything the apply function reads or writes for one client, quarantine apart. */
  datatype ClientState = ClientState(history: History, watermark: Option<int>, nextKey: int)

  /** A missing watermark row counts as 0. */
  function Floor(w: Option<int>): int {
    if w.None? then 0 else w.value
  }

  function EndDate(h: History, ts: int): History {
    map l | l in h :: if h[l].isCurrent then h[l].(validTo := ts, isCurrent := false) else h[l]
  }

  /** INSERT ... ON CONFLICT (client_id, source_lsn) DO NOTHING. */
  function Append(h: History, lsn: int, v: Version): History {
    if lsn in h then h else h[lsn := v]
  }

  /** The values a tombstone copies from a row; its status is its own. */
  function Carried(a: Attributes): Attributes {
    a.(status := "deleted")
  }

  /** The values of the appended row; a tombstone copies the highest row there is, and
      there may be none. */
  function AppendedAttributes(h: History, change: Change): Option<Attributes> {
    match change
    case Insert(after) => Some(after)
    case Update(after) => Some(after)
    case Delete => if h == map[] then None else Some(Carried(h[Max(h.Keys)].attrs))
  }

  /** An open, current version. */
  function Opened(key: int, attrs: Attributes, e: Event): Version {
    Version(key, attrs, e.commitTs, END_OF_TIME, true, e.change.Delete?)
  }

  /** apply_cdc_event on one client. */
  function Apply(s: ClientState, e: Event): ClientState {
    if e.lsn <= Floor(s.watermark) then
      s.(watermark := Some(Floor(s.watermark)))
    else
      var closed := EndDate(s.history, e.commitTs);
      match AppendedAttributes(closed, e.change)
      case None => ClientState(closed, Some(e.lsn), s.nextKey)
      case Some(attrs) =>
        ClientState(Append(closed, e.lsn, Opened(s.nextKey, attrs, e)), Some(e.lsn), s.nextKey + 1)
  }

  datatype Verdict = Applied | Rejected(reason: Reason)

  /** What becomes of an event handed to the guarded apply. */
  function Judge(s: ClientState, e: Event): Verdict {
    if e.change.Delete? && s.history == map[] then Rejected(DeleteWithNoBaseline)
    else if e.lsn <= Floor(s.watermark) then Rejected(StaleLsn)
    else Applied
  }

  /** The guard both callers put in front of apply_cdc_event: a delete for a client without
      rows is quarantined instead. */
  function Step(s: ClientState, e: Event): ClientState {
    if e.change.Delete? && s.history == map[] then s else Apply(s, e)
  }

  /** Handing over a list of events one by one. */
  function Run(s: ClientState, es: seq<Event>): ClientState {
    if es == [] then s else Step(Run(s, DropLast(es)), Last(es))
  }

  function Below(h: History, lsn: int): History {
    map l | l in h && l < lsn :: h[l]
  }

  /** Reopening the highest row, whatever it is. */
  function Reactivate(h: History): History {
    if h == map[] then h
    else
      var m := Max(h.Keys);
      h[m := h[m].(isCurrent := true, validTo := END_OF_TIME)]
  }

  /** reset_client_for_reload. */
  function Reset(s: ClientState, from: int): ClientState {
    ClientState(
      Reactivate(Below(s.history, from)),
      if s.watermark.None? then None else Some(from - 1),
      s.nextKey)
  }

  /** The change log of one client as far as the engine relies on it: lsns are positive,
      commit times lie in range and do not run against the lsn order. */
  type Log = map<int, Event>

  ghost predicate LogOk(log: Log) {
    && (forall l | l in log :: 0 < l && log[l].lsn == l)
    && (forall l | l in log :: BEGINNING_OF_TIME <= log[l].commitTs < END_OF_TIME)
    && (forall l, m | l in log && m in log && l <= m :: log[l].commitTs <= log[m].commitTs)
  }

  /** A delivery of a logged event: its values may differ from the logged ones, its commit
      time may not. */
  ghost predicate Logged(log: Log, e: Event) {
    e.lsn in log && e.commitTs == log[e.lsn].commitTs
  }

  ghost predicate AllLogged(log: Log, es: seq<Event>) {
    forall i | 0 <= i < |es| :: Logged(log, es[i])
  }

  /** A row starts with the log entry of its lsn, the baseline row with time itself. */
  function StartOf(log: Log, l: int): int
    requires l != 0 ==> l in log
  {
    if l == 0 then BEGINNING_OF_TIME else log[l].commitTs
  }

  /** The run invariant of a client without stopgap rows: one chain of windows, each row
      from the log or the baseline, none above the watermark. */
  ghost predicate Settled(s: ClientState, log: Log) {
    && Chained(s.history) && 0 <= Floor(s.watermark)
    && (forall l | l in s.history :: 0 <= l <= Floor(s.watermark))
    && (forall l | l in s.history && l != 0 :: l in log)
    && (forall l | l in s.history :: s.history[l].validFrom == StartOf(log, l))
    && (forall l | l in s.history :: s.history[l].key < s.nextKey)
  }

  /** An accepted event's lsn is above every row. */
  lemma AcceptedIsNew(s: ClientState, log: Log, e: Event)
    requires Settled(s, log) && Judge(s, e) == Applied
    ensures forall l | l in s.history :: l < e.lsn
    ensures e.lsn !in s.history
  {
  }

  /** What an accepted event leaves of the chain, row by row. */
  lemma AppliedRows(s: ClientState, log: Log, e: Event)
    requires Settled(s, log) && Judge(s, e) == Applied
    ensures Extends(s.history, Step(s, e).history, e.lsn)
    ensures Step(s, e).history[e.lsn] == Opened(s.nextKey, AppendedAttributes(s.history, e.change).value, e)
  {
    AcceptedIsNew(s, log, e);
    var h, g := s.history, Step(s, e).history;
    assert EndDate(h, e.commitTs).Keys == h.Keys;
    forall l | l in h
      ensures g[l] == if After(h, l) == {} then h[l].(validTo := e.commitTs, isCurrent := false) else h[l]
    {
      assert Linked(h, l);
    }
  }

  lemma StepKeepsChain(s: ClientState, log: Log, e: Event)
    requires LogOk(log) && Settled(s, log) && Logged(log, e) && Judge(s, e) == Applied
    ensures Chained(Step(s, e).history)
  {
    AppliedRows(s, log, e);
    forall l | l in s.history
      ensures s.history[l].validFrom <= e.commitTs
    {
      AcceptedIsNew(s, log, e);
      assert s.history[l].validFrom == StartOf(log, l);
    }
    ExtendedChain(s.history, Step(s, e).history, e.lsn);
  }

  lemma StepKeepsSettled(s: ClientState, log: Log, e: Event)
    requires LogOk(log) && Settled(s, log) && Logged(log, e)
    ensures Settled(Step(s, e), log)
  {
    if Judge(s, e) == Applied {
      StepKeepsChain(s, log, e);
      AppliedRows(s, log, e);
      var h, g := s.history, Step(s, e).history;
      forall l | l in g
        ensures 0 <= l <= e.lsn
        ensures l != 0 ==> l in log
        ensures g[l].validFrom == StartOf(log, l) && g[l].key < Step(s, e).nextKey
      {
        if l in h {
          assert h[l].validFrom == StartOf(log, l);
        }
      }
    }
  }

  /** Whatever is handed over, in whatever order, the windows stay one chain. */
  lemma {:induction false} RunKeepsSettled(s: ClientState, log: Log, es: seq<Event>)
    requires LogOk(log) && Settled(s, log) && AllLogged(log, es)
    ensures Settled(Run(s, es), log)
  {
    if es != [] {
      RunKeepsSettled(s, log, DropLast(es));
      StepKeepsSettled(Run(s, DropLast(es)), log, Last(es));
    }
  }

  lemma RunOneMore(s: ClientState, es: seq<Event>, n: nat)
    requires n < |es|
    ensures Run(s, es[..n + 1]) == Step(Run(s, es[..n]), es[n])
  {
    assert DropLast(es[..n + 1]) == es[..n] && Last(es[..n + 1]) == es[n];
  }

  lemma {:induction false} RunConcat(s: ClientState, a: seq<Event>, b: seq<Event>)
    ensures Run(s, a + b) == Run(Run(s, a), b)
  {
    if b == [] {
      assert a + b == a;
    } else {
      assert DropLast(a + b) == a + DropLast(b) && Last(a + b) == Last(b);
      RunConcat(s, a, DropLast(b));
    }
  }

  lemma RunFirst(s: ClientState, es: seq<Event>)
    requires es != []
    ensures Run(s, es) == Run(Step(s, es[0]), es[1..])
  {
    var head := [es[0]];
    assert head + es[1..] == es && DropLast(head) == [] && Last(head) == es[0];
    assert Run(s, []) == s;
    RunConcat(s, head, es[1..]);
  }
}

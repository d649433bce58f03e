/** What a streaming run does with the staged rows themselves, whatever it selects of them
(scd2_apply in layer3_warehouse.py). */
module StagedEvents {
  import opened Model
  import opened ClientCdc
  import opened Lists
  import opened Streaming
  import opened ClientReload
  import opened Database
  import opened StreamRuns

  lemma SelectedAreLogged(db: Db, logs: Logs, staged: seq<Event>)
    requires AllInLogs(logs, staged)
    ensures AllInLogs(logs, Selected(db, staged))
  {
    var sel := Selected(db, staged);
    forall k | 0 <= k < |sel|
      ensures Logged(LogOf(logs, sel[k].client), sel[k])
    {
      SelectedMembers(db, staged, sel[k]);
      assert sel[k] in staged;
    }
  }

  /** After a run every staged event of a client that had rows is at or below its watermark. */
  lemma StagedArePassed(db: Db, logs: Logs, staged: seq<Event>, e: Event)
    requires LogsOk(logs) && AllInLogs(logs, staged) && e in staged && HistoryOf(db, e.client) != map[]
    ensures var after := StreamRun(db, staged);
      e.client in after.watermark && e.lsn <= after.watermark[e.client]
  {
    var sel, c := Selected(db, staged), e.client;
    SelectedAreLogged(db, logs, staged);
    if Passed(db, e) {
      NothingUnpends(db, sel, e);
    } else {
      SelectedMembers(db, staged, e);
      OfClientMembers(sel, c, e);
      var i :| 0 <= i < |OfClient(sel, c)| && OfClient(sel, c)[i] == e;
      PassedInRun(db, logs, staged, c, i);
    }
  }

  lemma OfClientOneMore(es: seq<Event>, e: Event, c: Client)
    ensures OfClient(es + [e], c) == OfClient(es, c) + if e.client == c then [e] else []
  {
    assert DropLast(es + [e]) == es && Last(es + [e]) == e;
  }

  lemma SelectedOneMore(db: Db, staged: seq<Event>)
    requires staged != []
    ensures Selected(db, staged) ==
      Selected(db, DropLast(staged)) + if Passed(db, Last(staged)) then [] else [Last(staged)]
  {
  }

  /** A client nothing was applied of has all its staged events selected. */
  lemma {:induction false} FreshSelectsAll(db: Db, logs: Logs, staged: seq<Event>, c: Client)
    requires LogsOk(logs) && AllInLogs(logs, staged) && Floor(WatermarkOf(db, c)) == 0
    ensures OfClient(Selected(db, staged), c) == OfClient(staged, c)
  {
    if staged != [] {
      var init, e := DropLast(staged), Last(staged);
      FreshSelectsAll(db, logs, init, c);
      assert Logged(LogOf(logs, e.client), e);
      SelectedOneMore(db, staged);
      Snoc(staged);
      OfClientOneMore(init, e, c);
      if Passed(db, e) {
        assert e.client != c;
      } else {
        OfClientOneMore(Selected(db, init), e, c);
      }
    }
  }

  /** After a run all staged events are at or below their clients' watermarks - a second run then finds
      nothing to do - if and only if for each client without rows every delete staged ahead of its
      first insert or update was overtaken by what is staged from there on. */
  lemma AllStagedPassedIff(db: Db, logs: Logs, staged: seq<Event>)
    requires LogsOk(logs) && AllInLogs(logs, staged) && forall c :: RowsOrFresh(Project(db, c))
    ensures (forall e | e in staged ::
               var after := StreamRun(db, staged); e.client in after.watermark && e.lsn <= after.watermark[e.client])
      <==> forall c | HistoryOf(db, c) == map[] :: BareDeletesOvertaken(map[], OfClient(staged, c))
  {
    var sel, after := Selected(db, staged), StreamRun(db, staged);
    SelectedAreLogged(db, logs, staged);
    RerunIsIdleIff(db, logs, staged);
    forall c
      ensures BareDeletesOvertaken(HistoryOf(db, c), OfClient(sel, c)) <==>
        (HistoryOf(db, c) == map[] ==> BareDeletesOvertaken(map[], OfClient(staged, c)))
    {
      assert RowsOrFresh(Project(db, c));
      if HistoryOf(db, c) == map[] {
        FreshSelectsAll(db, logs, staged, c);
      }
    }
    NothingSelectedIff(after, staged);
  }

  lemma NothingSelectedIff(db: Db, staged: seq<Event>)
    ensures Selected(db, staged) == [] <==> forall e | e in staged :: Passed(db, e)
  {
    forall e | e in staged && !Passed(db, e)
      ensures e in Selected(db, staged)
    {
      SelectedMembers(db, staged, e);
    }
    if Selected(db, staged) != [] {
      SelectedMembers(db, staged, Last(Selected(db, staged)));
    }
  }

  /** The staged event with a client's highest lsn decides, wherever it is staged: after the run the
      client's watermark, its highest row, that row's start, deleted flag and values are the
      event's. */
  lemma StagedTopIsCurrent(db: Db, logs: Logs, staged: seq<Event>, top: Event)
    requires LogsOk(logs) && AllInLogs(logs, staged) && top in staged
    requires Clean(db, logs, top.client) && HistoryOf(db, top.client) != map[]
    requires top.client in db.watermark ==> db.watermark[top.client] < top.lsn
    requires forall e | e in staged && e.client == top.client :: e.lsn <= top.lsn && (e.lsn == top.lsn ==> e == top)
    ensures var c, after := top.client, StreamRun(db, staged); var g := HistoryOf(after, c);
      && c in after.watermark && after.watermark[c] == top.lsn
      && top.lsn in g && (forall l | l in g :: l <= top.lsn)
      && g[top.lsn].validFrom == top.commitTs && g[top.lsn].isDeleted == top.change.Delete?
      && g[top.lsn].attrs.status == (if top.change.Delete? then "deleted" else top.change.after.status)
      && (!top.change.Delete? ==> g[top.lsn].attrs == top.change.after)
  {
    var sel, c := Selected(db, staged), top.client;
    var s, own := Project(db, c), OfClient(sel, c);
    SelectedAreLogged(db, logs, staged);
    OfClientLogged(logs, sel, c);
    SelectedMembers(db, staged, top);
    OfClientMembers(sel, c, top);
    assert Logged(LogOf(logs, c), top) by {
      var i :| 0 <= i < |staged| && staged[i] == top;
    }
    forall e | e in own
      ensures e.lsn <= top.lsn && (e.lsn == top.lsn ==> e == top)
    {
      OfClientMembers(sel, c, e);
      SelectedMembers(db, staged, e);
    }
    TopEventIsCurrent(s, LogOf(logs, c), own, top);
    ClientSeesItsOwn(db, sel, c);
    SameTop(HistoryOf(Handle(db, sel), c), Run(s, own).history, top.lsn);
  }

  lemma SameTop(g: History, h: History, l: int)
    requires SameContent(g, h) && l in h
    ensures l in g && g[l].(key := 0) == h[l].(key := 0)
  {
  }
}

/** A reload can always be carried through: from sound tables, whichever doomed row a placeholder
copies, every parked fact finds a row again (reload.py).
*/
module Completion {
  import opened Model
  import opened FiniteSets
  import opened Histories
  import opened Lists
  import opened Database
  import opened StreamRuns
  import opened FactIntegrity
  import opened ReloadSteps
  import opened ReloadRuns

  ghost predicate Answered(h: History, t: int) {
    exists l :: l in Covering(h, t)
  }

  /** A fact moved to some row covering its day. */
  ghost function Relocated(h: History, f: Fact): Fact
    requires Answered(h, Midnight(f.day))
  {
    var l :| l in Covering(h, Midnight(f.day));
    f.(snapshotKey := h[l].key)
  }

  ghost function RelocateAll(db: Db, c: Client, parked: set<FactId>): Db
    requires forall id | id in db.facts && id in parked :: Answered(HistoryOf(db, c), Midnight(db.facts[id].day))
  {
    db.(facts := map id | id in db.facts ::
      if id in parked then Relocated(HistoryOf(db, c), db.facts[id]) else db.facts[id])
  }

  lemma AllRelocated(db: Db, c: Client, parked: set<FactId>)
    requires forall id | id in db.facts && id in parked :: Answered(HistoryOf(db, c), Midnight(db.facts[id].day))
    ensures Reresolved(db, c, parked, RelocateAll(db, c, parked))
  {
    var after := RelocateAll(db, c, parked);
    forall id | id in db.facts && id in parked
      ensures MovedTo(db, c, db.facts[id], after.facts[id])
    {
      assert after.facts[id] == Relocated(HistoryOf(db, c), db.facts[id]);
    }
  }

  /** One client's reload, with pick as the copied row where one is copied. */
  lemma ReloadCompletes(db: Db, raw: Logs, c: Client, from: int, es: seq<Event>, pick: int) returns (tr: Trace)
    requires Reloadable(db, raw, c, from, es)
    requires pick in HistoryOf(db, c) || !NeedsPlaceholder(db, c, from)
    ensures tr.start == db && IsReload(tr, c, from, es, pick)
  {
    var (parked, parking) := Park(db, c, from, pick);
    var reset := ResetClient(parked, c, from);
    var replayed := Handle(reset, es);
    tr := Trace(db, parked, reset, replayed, replayed, replayed, parking);
    forall id | id in replayed.facts && id in parking.parked
      ensures Answered(HistoryOf(replayed, c), Midnight(replayed.facts[id].day))
    {
      ParkedFactIsCovered(tr, raw, c, from, es, pick, id);
    }
    AllRelocated(replayed, c, parking.parked);
    var resolved := RelocateAll(replayed, c, parking.parked);
    tr := tr.(resolved := resolved,
              finish := if parking.placeholder.None? then resolved else DeleteKeys(resolved, {db.nextKey}));
  }

  lemma ParkedFactIsCovered(tr: Trace, raw: Logs, c: Client, from: int, es: seq<Event>, pick: int, id: FactId)
    requires Reloadable(tr.start, raw, c, from, es) && IsRebuild(tr, c, from, es, pick)
    requires id in tr.parking.parked && id in tr.replayed.facts
    ensures Answered(HistoryOf(tr.replayed, c), Midnight(tr.replayed.facts[id].day))
  {
    var l := NoGap(tr, raw, c, from, es, pick, id);
    var h := HistoryOf(tr.replayed, c);
    HandleKeepsFacts(tr.reset, es);
    assert l in Covering(RealRows(h), Midnight(tr.start.facts[id].day));
    assert l in Covering(h, Midnight(tr.start.facts[id].day));
  }

  lemma SomePick(db: Db, c: Client, from: int) returns (pick: int)
    ensures pick in HistoryOf(db, c) || !NeedsPlaceholder(db, c, from)
  {
    pick := 0;
    if NeedsPlaceholder(db, c, from) {
      var id := Pick(Referring(db, DoomedKeys(HistoryOf(db, c), from)));
      var l :| l in HistoryOf(db, c) && from <= l && HistoryOf(db, c)[l].key == db.facts[id].snapshotKey;
      pick := l;
    }
  }

  /** The clients of a set, each once. */
  lemma Listing(cs: set<Client>) returns (clients: seq<Client>)
    ensures Distinct(clients) && forall c :: c in clients <==> c in cs
  {
    clients := [];
    if cs != {} {
      var c := Pick(cs);
      var rest := Listing(cs - {c});
      clients := rest + [c];
    }
  }

  /** Some clients' rows to copy, should one of their rows be copied. */
  ghost predicate Choices(db: Db, chosen: map<Client, int>) {
    forall c | c in chosen :: chosen[c] in HistoryOf(db, c)
  }

  /** The reloads of a run follow those choices. */
  ghost predicate Follows(clients: seq<Client>, picks: seq<int>, chosen: map<Client, int>) {
    |clients| == |picks| && forall i | 0 <= i < |clients| && clients[i] in chosen :: picks[i] == chosen[clients[i]]
  }

  /** Any affected clients can be reloaded one after another. */
  lemma {:induction false} RunCompletes(start: Db, raw: Logs, fromTs: int, toTs: int, clients: seq<Client>, chosen: map<Client, int>)
    returns (traces: seq<Trace>, picks: seq<int>)
    requires Ready(start, raw, fromTs, toTs) && Distinct(clients)
    requires forall c | c in clients :: c in Affected(raw, fromTs, toTs)
    requires Choices(start, chosen)
    ensures IsReloadRun(start, raw, fromTs, toTs, clients, traces, picks) && Follows(clients, picks, chosen)
  {
    if clients == [] {
      traces, picks := [], [];
    } else {
      Snoc(clients);
      var init, c := DropLast(clients), Last(clients);
      var ts, ps := RunCompletes(start, raw, fromTs, toTs, init, chosen);
      var tr, pick := NextCompletes(start, raw, fromTs, toTs, init, ts, ps, c, chosen);
      ExtendRun(start, raw, fromTs, toTs, init, ts, ps, c, tr, pick);
      traces, picks := ts + [tr], ps + [pick];
    }
  }

  lemma NextCompletes(start: Db, raw: Logs, fromTs: int, toTs: int, clients: seq<Client>,
                      traces: seq<Trace>, picks: seq<int>, c: Client, chosen: map<Client, int>) returns (tr: Trace, pick: int)
    requires Ready(start, raw, fromTs, toTs) && IsReloadRun(start, raw, fromTs, toTs, clients, traces, picks)
    requires c in Affected(raw, fromTs, toTs) && c !in clients && Choices(start, chosen)
    ensures tr.start == StateAfter(start, traces, |traces|) && (c in chosen ==> pick == chosen[c])
    ensures var from := ResetPoint(raw, c, fromTs, toTs); IsReload(tr, c, from, EventsFrom(raw, c, from), pick)
  {
    var now, from := StateAfter(start, traces, |traces|), ResetPoint(raw, c, fromTs, toTs);
    NextIsReloadable(start, raw, fromTs, toTs, clients, traces, picks, c);
    UntouchedBetween(start, raw, fromTs, toTs, clients, traces, picks, c, 0, |traces|);
    if c in chosen {
      pick := chosen[c];
    } else {
      pick := SomePick(now, c, from);
    }
    tr := ReloadCompletes(now, raw, c, from, EventsFrom(raw, c, from), pick);
  }

  /** From sound tables a reload of any window can run to its end, whichever rows its
      placeholders copy. */
  lemma WholeRunCompletes(start: Db, raw: Logs, fromTs: int, toTs: int, chosen: map<Client, int>)
    returns (end: Db, clients: seq<Client>, traces: seq<Trace>, picks: seq<int>)
    requires Ready(start, raw, fromTs, toTs) && Choices(start, chosen)
    ensures IsWholeRun(start, end, raw, fromTs, toTs, clients, traces, picks) && Follows(clients, picks, chosen)
  {
    clients := Listing(Affected(raw, fromTs, toTs));
    traces, picks := RunCompletes(start, raw, fromTs, toTs, clients, chosen);
    end := StateAfter(start, traces, |traces|);
  }
}

/** How many events a reload hands over (historical_reload in reload.py). */
module ReloadCount {
  import opened Model
  import opened FiniteSets
  import opened Lists
  import opened ClientReload
  import opened StreamRuns
  import opened ReloadRuns

  /** Client and lsn of every logged event committed from the window's start on, for the clients with
      an event in the window. */
  ghost function DueEvents(raw: Logs, fromTs: int, toTs: int): set<(Client, int)> {
    set c, l | c in raw && l in raw[c]
               && fromTs <= raw[c][l].commitTs && (exists m :: m in raw[c] && fromTs <= raw[c][m].commitTs < toTs)
      :: (c, l)
  }

  /** Those of one client. */
  ghost function DueOf(raw: Logs, c: Client, fromTs: int): set<(Client, int)> {
    set l | l in LogOf(raw, c) && fromTs <= LogOf(raw, c)[l].commitTs :: (c, l)
  }

  lemma {:induction false} SortedSize(s: set<int>)
    ensures |Sorted(s)| == |s|
  {
    if s != {} {
      SortedSize(s - {Max(s)});
    }
  }

  lemma {:induction false} PairsSize(c: Client, s: set<int>)
    ensures |set l | l in s :: (c, l)| == |s|
  {
    if s != {} {
      var x := Pick(s);
      PairsSize(c, s - {x});
      assert (set l | l in s :: (c, l)) == (set l | l in s - {x} :: (c, l)) + {(c, x)};
    }
  }

  /** One client's reload replays what is due of its log. */
  lemma ReplaysDue(raw: Logs, c: Client, fromTs: int, toTs: int)
    requires LogsOk(raw) && c in Affected(raw, fromTs, toTs)
    ensures |EventsFrom(raw, c, ResetPoint(raw, c, fromTs, toTs))| == |DueOf(raw, c, fromTs)|
  {
    var from := ResetPoint(raw, c, fromTs, toTs);
    var due := LogFrom(LogOf(raw, c), from).Keys;
    ReplaysFromWindowOn(raw, c, fromTs, toTs);
    SortedSize(due);
    PairsSize(c, due);
    assert DueOf(raw, c, fromTs) == set l | l in due :: (c, l);
  }

  /** What the clients of a list have due. */
  ghost function DueOfAll(raw: Logs, clients: seq<Client>, fromTs: int): set<(Client, int)> {
    if clients == [] then {} else DueOfAll(raw, DropLast(clients), fromTs) + DueOf(raw, Last(clients), fromTs)
  }

  lemma {:induction false} DueMembers(raw: Logs, clients: seq<Client>, fromTs: int, c: Client, l: int)
    ensures (c, l) in DueOfAll(raw, clients, fromTs) <==>
      c in clients && l in LogOf(raw, c) && fromTs <= LogOf(raw, c)[l].commitTs
  {
    if clients != [] {
      Snoc(clients);
      DueMembers(raw, DropLast(clients), fromTs, c, l);
    }
  }

  lemma {:induction false} ReplayedIsDue(raw: Logs, fromTs: int, toTs: int, clients: seq<Client>)
    requires LogsOk(raw) && Distinct(clients) && forall c | c in clients :: c in Affected(raw, fromTs, toTs)
    ensures Replayed(raw, fromTs, toTs, clients) == |DueOfAll(raw, clients, fromTs)|
  {
    if clients != [] {
      var init, c := DropLast(clients), Last(clients);
      Snoc(clients);
      ReplayedIsDue(raw, fromTs, toTs, init);
      ReplaysDue(raw, c, fromTs, toTs);
      forall p | p in DueOf(raw, c, fromTs)
        ensures p !in DueOfAll(raw, init, fromTs)
      {
        DueMembers(raw, init, fromTs, c, p.1);
      }
    }
  }

  lemma AffectedByHit(raw: Logs, c: Client, fromTs: int, toTs: int)
    requires c in raw
    ensures c in Affected(raw, fromTs, toTs) <==> exists m :: m in raw[c] && fromTs <= raw[c][m].commitTs < toTs
  {
    if m :| m in raw[c] && fromTs <= raw[c][m].commitTs < toTs {
      assert m in Hits(raw[c], fromTs, toTs);
    }
    if c in Affected(raw, fromTs, toTs) {
      var m := ResetPoint(raw, c, fromTs, toTs);
    }
  }

  lemma DueIff(raw: Logs, fromTs: int, toTs: int, c: Client, l: int)
    ensures (c, l) in DueEvents(raw, fromTs, toTs) <==>
      c in Affected(raw, fromTs, toTs) && l in LogOf(raw, c) && fromTs <= LogOf(raw, c)[l].commitTs
  {
    if c in raw {
      AffectedByHit(raw, c, fromTs, toTs);
    }
  }

  /** A reload of all affected clients hands over exactly the events due, each once. */
  lemma ReplayedCount(raw: Logs, fromTs: int, toTs: int, clients: seq<Client>)
    requires LogsOk(raw) && Distinct(clients) && forall c :: c in clients <==> c in Affected(raw, fromTs, toTs)
    ensures Replayed(raw, fromTs, toTs, clients) == |DueEvents(raw, fromTs, toTs)|
  {
    ReplayedIsDue(raw, fromTs, toTs, clients);
    forall p: (Client, int)
      ensures p in DueEvents(raw, fromTs, toTs) <==> p in DueOfAll(raw, clients, fromTs)
    {
      DueMembers(raw, clients, fromTs, p.0, p.1);
      DueIff(raw, fromTs, toTs, p.0, p.1);
    }
    assert DueEvents(raw, fromTs, toTs) == DueOfAll(raw, clients, fromTs);
  }
}

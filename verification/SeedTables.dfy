/** What a seed run leaves in the tables and what it counts, spelled out on lsns and values
(scd2_baseline_seed in layer3_warehouse.py). */
module SeedTables {
  import opened Model
  import opened Lists
  import opened Database
  import opened FactIntegrity
  import opened BaselineSeed
  import opened BaselineRuns

  /** The client's first row of the list carries these values. */
  ghost predicate FirstListed(rows: seq<(Client, Attributes)>, c: Client, a: Attributes) {
    exists i :: 0 <= i < |rows| && rows[i] == (c, a) && forall j | 0 <= j < i :: rows[j].0 != c
  }

  lemma FirstOfMore(rows: seq<(Client, Attributes)>, c: Client, a: Attributes)
    requires rows != []
    ensures FirstListed(DropLast(rows), c, a) ==> FirstListed(rows, c, a)
    ensures Last(rows) == (c, a) && !Listed(DropLast(rows), c) ==> FirstListed(rows, c, a)
  {
    var init := DropLast(rows);
    if FirstListed(init, c, a) {
      var i :| 0 <= i < |init| && init[i] == (c, a) && forall j | 0 <= j < i :: init[j].0 != c;
      assert rows[i] == (c, a) && forall j | 0 <= j < i :: rows[j].0 != c;
    }
    if Last(rows) == (c, a) && !Listed(init, c) {
      assert forall j | 0 <= j < |init| :: rows[j] == init[j] && rows[j] in init;
      assert rows[|rows| - 1] == (c, a);
    }
  }

  lemma {:induction false} EligibleFirst(profile: seq<(Client, Attributes)>, excluded: set<Client>, c: Client, a: Attributes)
    requires FirstListed(Eligible(profile, excluded), c, a)
    ensures FirstListed(profile, c, a)
  {
    var init, rows := DropLast(profile), Eligible(profile, excluded);
    var kept := Eligible(init, excluded);
    var i :| 0 <= i < |rows| && rows[i] == (c, a) && forall j | 0 <= j < i :: rows[j].0 != c;
    EligibleRows(profile, excluded, rows[i]);
    if i < |kept| {
      assert kept[i] == (c, a) && forall j | 0 <= j < i :: kept[j] == rows[j];
      EligibleFirst(init, excluded, c, a);
    } else {
      forall r | r in kept
        ensures r.0 != c
      {
        var j :| 0 <= j < |kept| && kept[j] == r;
        assert rows[j] == r;
      }
      EligibleClients(init, excluded, c);
    }
    FirstOfMore(profile, c, a);
  }

  /** The row a client without CDC history is seeded with: the one it had, or a fresh open one. */
  ghost predicate SeededAs(db: Db, after: Db, c: Client, a: Attributes) {
    var h, g := HistoryOf(db, c), HistoryOf(after, c);
    && g.Keys == {0}
    && if 0 in h then g[0] == h[0]
       else db.nextKey <= g[0].key < after.nextKey
            && g[0] == Version(g[0].key, a, 0, 253_402_214_400_000_000, true, false)
  }

  lemma SeedOne(db: Db, c: Client, a: Attributes)
    requires Seedable(db) && forall l | l in HistoryOf(db, c) :: l <= 0
    ensures SeededAs(db, SeedClient(db, c, a), c, a)
  {
    SeedLeavesOneRow(db, c, a);
  }

  lemma {:induction false} ListedIsSeededAs(db: Db, rows: seq<(Client, Attributes)>, c: Client) returns (a: Attributes)
    requires Seedable(db) && Listed(rows, c) && forall l | l in HistoryOf(db, c) :: l <= 0
    ensures FirstListed(rows, c, a) && SeededAs(db, SeedEach(db, rows), c, a)
  {
    Snoc(rows);
    var init, last := DropLast(rows), Last(rows);
    var mid := SeedEach(db, init);
    SeedEachKeepsSeedable(db, init);
    SeedEachKeepsTables(db, init);
    SeedKeepsTables(mid, last.0, last.1);
    if Listed(init, c) {
      a := ListedIsSeededAs(db, init, c);
    } else {
      a := last.1;
      UnlistedUntouched(db, init, c);
    }
    FirstOfMore(rows, c, a);
    if last.0 == c {
      SeedOne(mid, c, last.1);
    } else {
      SeedLeavesOthers(mid, last.0, last.1, c);
    }
  }

  /** The values a client is seeded with in a run: its first profile row's, or the sentinels of an
      orphan. */
  ghost predicate SeedValues(profile: seq<(Client, Attributes)>, c: Client, a: Attributes) {
    FirstListed(profile, c, a) || ((forall r | r in profile :: r.0 != c) && a == Attributes("unknown", 0, "unknown"))
  }

  /** What a seed run leaves of a client's rows.  A client that is excluded, has a row above lsn 0, or
      has no profile row and no stopgap keeps its rows.  Any other ends with the one row at lsn 0:
      the one it had, or an open one from the beginning of time with a fresh key. */
  lemma SeedRunOnTables(db: Db, profile: seq<(Client, Attributes)>, excluded: set<Client>,
                        orphans: seq<(Client, Attributes)>, after: Db, c: Client)
    requires Seedable(db) && IsSeedRun(db, profile, excluded, orphans, after)
    ensures var h, g := HistoryOf(db, c), HistoryOf(after, c);
      if c in excluded || (exists l :: l in h && 0 < l) || ((forall r | r in profile :: r.0 != c) && forall l | l in h :: 0 <= l)
      then g == h
      else exists a :: SeedValues(profile, c, a) && SeededAs(db, after, c, a)
  {
    var h := HistoryOf(db, c);
    if c in excluded {
      SeedRunOutcome(db, profile, excluded, orphans, after, c);
    } else if l :| l in h && 0 < l {
      SeedRunLeaves(db, profile, excluded, orphans, after, c);
    } else if Listed(profile, c) {
      ProfileIsSeeded(db, profile, excluded, orphans, after, c);
    } else if forall l | l in h :: 0 <= l {
      SeedRunLeaves(db, profile, excluded, orphans, after, c);
    } else {
      OrphanIsSeeded(db, profile, excluded, orphans, after, c);
    }
  }

  lemma ProfileIsSeeded(db: Db, profile: seq<(Client, Attributes)>, excluded: set<Client>,
                        orphans: seq<(Client, Attributes)>, after: Db, c: Client)
    requires Seedable(db) && IsSeedRun(db, profile, excluded, orphans, after)
    requires c !in excluded && Listed(profile, c) && forall l | l in HistoryOf(db, c) :: l <= 0
    ensures exists a :: SeedValues(profile, c, a) && SeededAs(db, after, c, a)
  {
    var rows := Eligible(profile, excluded);
    EligibleClients(profile, excluded, c);
    SeedEachKeepsSeedable(db, rows);
    var a := ListedIsSeededAs(db, rows, c);
    EligibleFirst(profile, excluded, c, a);
    UnlistedUntouched(SeedEach(db, rows), orphans, c);
    SeedEachKeepsTables(SeedEach(db, rows), orphans);
    assert SeedValues(profile, c, a) && SeededAs(db, after, c, a);
  }

  /** An orphan ends on a baseline of unknown values. */
  lemma OrphanIsSeeded(db: Db, profile: seq<(Client, Attributes)>, excluded: set<Client>,
                       orphans: seq<(Client, Attributes)>, after: Db, c: Client)
    requires Seedable(db) && IsSeedRun(db, profile, excluded, orphans, after)
    requires c !in excluded && (forall r | r in profile :: r.0 != c)
    requires (forall l | l in HistoryOf(db, c) :: l <= 0) && exists l :: l in HistoryOf(db, c) && l < 0
    ensures SeedValues(profile, c, Attributes("unknown", 0, "unknown"))
    ensures SeededAs(db, after, c, Attributes("unknown", 0, "unknown"))
  {
    var rows := Eligible(profile, excluded);
    EligibleClients(profile, excluded, c);
    SeedEachKeepsSeedable(db, rows);
    SeedEachKeepsTables(db, rows);
    UnlistedUntouched(db, rows, c);
    assert HasStopgap(SeedEach(db, rows), c);
    var a := ListedIsSeededAs(SeedEach(db, rows), orphans, c);
    assert (c, a) in orphans;
  }

  /** The clients that have a row at lsn 0 now and had none before. */
  ghost function NewBaselines(db: Db, after: Db): set<Client> {
    set c | c in after.snapshots && 0 in after.snapshots[c] && !(c in db.snapshots && 0 in db.snapshots[c])
  }

  ghost predicate BaselinesStay(db: Db, after: Db) {
    forall c | 0 in HistoryOf(db, c) :: 0 in HistoryOf(after, c)
  }

  lemma SeedKeepsBaselines(db: Db, c: Client, a: Attributes)
    requires Seedable(db)
    ensures BaselinesStay(db, SeedClient(db, c, a))
  {
    forall d | 0 in HistoryOf(db, d)
      ensures 0 in HistoryOf(SeedClient(db, c, a), d)
    {
      if d != c {
        SeedLeavesOthers(db, c, a, d);
      } else if !HasRealRows(HistoryOf(db, c)) {
        SeedLeavesOneRow(db, c, a);
      }
    }
  }

  /** One client's seed makes its baseline new if and only if all its rows were stopgaps. */
  lemma OneNewBaseline(db: Db, c: Client, a: Attributes)
    requires Seedable(db)
    ensures NewBaselines(db, SeedClient(db, c, a)) == if forall l | l in HistoryOf(db, c) :: l < 0 then {c} else {}
    ensures NewlySeeded(db, c) <==> forall l | l in HistoryOf(db, c) :: l < 0
  {
    var after := SeedClient(db, c, a);
    forall d
      ensures d in NewBaselines(db, after) <==> 0 in HistoryOf(after, d) && 0 !in HistoryOf(db, d)
      ensures d in NewBaselines(db, after) ==> d == c
    {
      if d != c {
        SeedLeavesOthers(db, c, a, d);
      }
    }
    if !HasRealRows(HistoryOf(db, c)) {
      SeedLeavesOneRow(db, c, a);
    }
  }

  lemma NewBaselinesAdd(db: Db, mid: Db, after: Db)
    requires BaselinesStay(db, mid) && BaselinesStay(mid, after)
    ensures BaselinesStay(db, after)
    ensures |NewBaselines(db, after)| == |NewBaselines(db, mid)| + |NewBaselines(mid, after)|
  {
    var x, y := NewBaselines(db, mid), NewBaselines(mid, after);
    forall c
      ensures c in NewBaselines(db, after) <==> 0 in HistoryOf(after, c) && 0 !in HistoryOf(db, c)
      ensures c in x <==> 0 in HistoryOf(mid, c) && 0 !in HistoryOf(db, c)
      ensures c in y <==> 0 in HistoryOf(after, c) && 0 !in HistoryOf(mid, c)
    {
    }
    assert NewBaselines(db, after) == x + y && x !! y;
  }

  lemma {:induction false} CountsNewBaselines(db: Db, rows: seq<(Client, Attributes)>)
    requires Seedable(db)
    ensures SeedCount(db, rows) == |NewBaselines(db, SeedEach(db, rows))| && BaselinesStay(db, SeedEach(db, rows))
  {
    if rows == [] {
      assert NewBaselines(db, db) == {};
    } else {
      var mid, last := SeedEach(db, DropLast(rows)), Last(rows);
      SeedEachKeepsSeedable(db, DropLast(rows));
      CountsNewBaselines(db, DropLast(rows));
      SeedKeepsBaselines(mid, last.0, last.1);
      OneNewBaseline(mid, last.0, last.1);
      NewBaselinesAdd(db, mid, SeedEach(db, rows));
    }
  }

  /** A seed run counts the clients that have a baseline after it and had none before. */
  lemma RunCountsNewBaselines(db: Db, profile: seq<(Client, Attributes)>, excluded: set<Client>,
                              orphans: seq<(Client, Attributes)>, after: Db)
    requires Seedable(db) && IsSeedRun(db, profile, excluded, orphans, after)
    ensures SeedRunCount(db, profile, excluded, orphans) == |NewBaselines(db, after)|
  {
    var rows := Eligible(profile, excluded);
    var mid := SeedEach(db, rows);
    SeedEachKeepsSeedable(db, rows);
    CountsNewBaselines(db, rows);
    CountsNewBaselines(mid, orphans);
    NewBaselinesAdd(db, mid, after);
  }

  /** A fact keeps all its columns through a seed but the key, and that only changes from a stopgap of
      its client to the client's baseline. */
  ghost predicate FactFollows(db: Db, after: Db, id: FactId)
    requires id in db.facts
  {
    var f := db.facts[id];
    && id in after.facts && after.facts[id] == f.(snapshotKey := after.facts[id].snapshotKey)
    && (after.facts[id].snapshotKey == f.snapshotKey
        || ((exists l :: l < 0 && IsRow(db, f.client, l, f.snapshotKey))
            && IsRow(after, f.client, 0, after.facts[id].snapshotKey)))
  }

  lemma SeedMovesFact(db: Db, c: Client, a: Attributes, id: FactId)
    requires Seedable(db) && id in db.facts
    ensures FactFollows(db, SeedClient(db, c, a), id)
  {
    var f := db.facts[id];
    if !HasRealRows(HistoryOf(db, c)) {
      SeedLeavesOneRow(db, c, a);
      if id in Referring(db, StopgapKeys(HistoryOf(db, c))) {
        StopgapFacts(db, c, id);
        var l :| l in HistoryOf(db, c) && l < 0 && HistoryOf(db, c)[l].key == f.snapshotKey;
        assert IsRow(db, c, l, f.snapshotKey);
      }
    }
  }

  /** Seeding makes no stopgap and changes no baseline key. */
  ghost predicate RowsFollow(db: Db, after: Db) {
    && (forall d, k | IsRow(db, d, 0, k) :: IsRow(after, d, 0, k))
    && forall d, l, k | l < 0 && IsRow(after, d, l, k) :: IsRow(db, d, l, k)
  }

  lemma FactFollowsOn(db: Db, mid: Db, after: Db, id: FactId)
    requires id in db.facts && FactFollows(db, mid, id) && FactFollows(mid, after, id)
    requires KeysUnique(mid) && RowsFollow(db, mid) && RowsFollow(mid, after)
    ensures FactFollows(db, after, id) && RowsFollow(db, after)
  {
    var f, g := db.facts[id], mid.facts[id];
    if g.snapshotKey != f.snapshotKey {
      assert IsRow(mid, f.client, 0, g.snapshotKey);
    }
  }

  lemma SeedRowsFollow(db: Db, c: Client, a: Attributes)
    requires Seedable(db)
    ensures RowsFollow(db, SeedClient(db, c, a))
  {
    forall d, l, k | d != c
      ensures IsRow(db, d, l, k) <==> IsRow(SeedClient(db, c, a), d, l, k)
    {
      SeedLeavesOthers(db, c, a, d);
    }
    if !HasRealRows(HistoryOf(db, c)) {
      SeedLeavesOneRow(db, c, a);
    }
  }

  lemma {:induction false} SeedEachMovesFact(db: Db, rows: seq<(Client, Attributes)>, id: FactId)
    requires Seedable(db) && id in db.facts
    ensures FactFollows(db, SeedEach(db, rows), id) && RowsFollow(db, SeedEach(db, rows))
  {
    if rows != [] {
      var mid, last := SeedEach(db, DropLast(rows)), Last(rows);
      SeedEachKeepsSeedable(db, DropLast(rows));
      SeedEachMovesFact(db, DropLast(rows), id);
      SeedMovesFact(mid, last.0, last.1, id);
      SeedRowsFollow(mid, last.0, last.1);
      FactFollowsOn(db, mid, SeedEach(db, rows), id);
    }
  }

  /** Over a whole run facts move from stopgaps to baselines of their client and change in nothing
      else; where the stopgap is gone they have moved. */
  lemma SeedRunMovesFacts(db: Db, profile: seq<(Client, Attributes)>, excluded: set<Client>,
                          orphans: seq<(Client, Attributes)>, after: Db, id: FactId)
    requires Seedable(db) && IsSeedRun(db, profile, excluded, orphans, after) && id in db.facts
    ensures FactFollows(db, after, id)
    ensures exists l :: IsRow(after, db.facts[id].client, l, after.facts[id].snapshotKey)
  {
    var rows := Eligible(profile, excluded);
    var mid := SeedEach(db, rows);
    SeedEachKeepsSeedable(db, rows);
    SeedEachKeepsSeedable(mid, orphans);
    SeedEachMovesFact(db, rows, id);
    SeedEachMovesFact(mid, orphans, id);
    FactFollowsOn(db, mid, after, id);
    assert Anchored(after, after.facts[id]);
    var l :| AnchoredAt(after, after.facts[id], l);
    assert IsRow(after, db.facts[id].client, l, after.facts[id].snapshotKey);
  }
}

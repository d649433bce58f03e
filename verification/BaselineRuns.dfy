/** Whole baseline seed runs (scd2_baseline_seed in layer3_warehouse.py). */
module BaselineRuns {
  import opened Model
  import opened FiniteSets
  import opened Histories
  import opened Lists
  import opened Database
  import opened FactIntegrity
  import opened BaselineSeed

  /** What a seed may rely on: sound keys and facts, and any lsn-0 row is a baseline as long as
      the client has no CDC history. */
  ghost predicate Seedable(db: Db) {
    && KeysUnique(db) && FactsAnchored(db)
    && (forall id | id in db.facts :: BEGINNING_OF_TIME <= Midnight(db.facts[id].day))
    && forall c | 0 in HistoryOf(db, c) && !HasRealRows(HistoryOf(db, c)) :: IsBaseline(HistoryOf(db, c)[0])
  }

  /** The client's one row after seeding: the one it had at lsn 0, or a fresh one. */
  function SeededRow(db: Db, c: Client, attrs: Attributes): Version {
    if 0 in HistoryOf(db, c) then HistoryOf(db, c)[0]
    else Version(db.nextKey, attrs, BEGINNING_OF_TIME, END_OF_TIME, true, false)
  }

  /** A client without CDC history ends with exactly one row, the full-window current baseline,
      and the facts on its stopgap rows have moved onto it. */
  lemma SeedLeavesOneRow(db: Db, c: Client, attrs: Attributes)
    requires Seedable(db) && forall l | l in HistoryOf(db, c) :: l <= 0
    ensures HistoryOf(SeedClient(db, c, attrs), c) == map[0 := SeededRow(db, c, attrs)]
    ensures IsBaseline(SeededRow(db, c, attrs))
    ensures SeedClient(db, c, attrs).facts ==
      Redirect(db.facts, StopgapKeys(HistoryOf(db, c)), SeededRow(db, c, attrs).key)
  {
    var with := WithBaseline(db, c, attrs);
    BaselineKeepsIntegrity(db, c, attrs);
    ClearedRows(with, c, HistoryOf(with, c)[0].key);
    BaselineOverStopgaps(db, c, attrs);
    if StopgapKeys(HistoryOf(db, c)) == {} {
      assert Redirect(db.facts, {}, SeededRow(db, c, attrs).key) == db.facts;
    }
  }

  /** Once the baseline is in, it is the client's one real row. */
  lemma BaselineOverStopgaps(db: Db, c: Client, attrs: Attributes)
    requires forall l | l in HistoryOf(db, c) :: l <= 0
    ensures var g := HistoryOf(WithBaseline(db, c, attrs), c);
      RealRows(g) == map[0 := SeededRow(db, c, attrs)] && StopgapKeys(g) == StopgapKeys(HistoryOf(db, c))
  {
    var h, g := HistoryOf(db, c), HistoryOf(WithBaseline(db, c, attrs), c);
    assert RealRows(g) == map[0 := g[0]];
    forall l | l < 0
      ensures l in g <==> l in h
      ensures l in g ==> g[l] == h[l]
    {
    }
  }

  lemma SeedLeavesOthers(db: Db, c: Client, attrs: Attributes, d: Client)
    requires Seedable(db) && d != c
    ensures HistoryOf(SeedClient(db, c, attrs), d) == HistoryOf(db, d)
  {
    BaselineKeepsIntegrity(db, c, attrs);
    var with := WithBaseline(db, c, attrs);
    ClearingLeavesOthers(with, c, HistoryOf(with, c)[0].key, d);
  }

  lemma SeedKeepsTables(db: Db, c: Client, attrs: Attributes)
    ensures SeedClient(db, c, attrs).watermark == db.watermark
    ensures SeedClient(db, c, attrs).quarantine == db.quarantine
    ensures db.nextKey <= SeedClient(db, c, attrs).nextKey
    ensures SeedClient(db, c, attrs).facts.Keys == db.facts.Keys
    ensures forall id | id in db.facts :: SeedClient(db, c, attrs).facts[id].day == db.facts[id].day
  {
  }

  /** Seeding keeps every reference sound. */
  lemma SeedKeepsSeedable(db: Db, c: Client, attrs: Attributes)
    requires Seedable(db)
    ensures Seedable(SeedClient(db, c, attrs))
  {
    var after := SeedClient(db, c, attrs);
    SeedKeepsTables(db, c, attrs);
    if !HasRealRows(HistoryOf(db, c)) {
      BaselineKeepsIntegrity(db, c, attrs);
      SeedLeavesOneRow(db, c, attrs);
      ClearingKeepsIntegrity(WithBaseline(db, c, attrs), c);
      forall d | 0 in HistoryOf(after, d) && !HasRealRows(HistoryOf(after, d))
        ensures IsBaseline(HistoryOf(after, d)[0])
      {
        if d != c {
          SeedLeavesOthers(db, c, attrs, d);
        }
      }
    }
  }

  /** Seeding a client again would change nothing but draw a surrogate key. */
  ghost predicate SeedIdle(db: Db, c: Client) {
    HasRealRows(HistoryOf(db, c)) || (0 in HistoryOf(db, c) && NoStopgap(HistoryOf(db, c)))
  }

  lemma IdleSeed(db: Db, c: Client, attrs: Attributes)
    requires SeedIdle(db, c)
    ensures SeedClient(db, c, attrs) == db.(nextKey := SeedClient(db, c, attrs).nextKey)
    ensures !NewlySeeded(db, c)
  {
  }

  lemma SeededIsIdle(db: Db, c: Client, attrs: Attributes)
    requires Seedable(db)
    ensures SeedIdle(SeedClient(db, c, attrs), c)
  {
    if !HasRealRows(HistoryOf(db, c)) {
      SeedLeavesOneRow(db, c, attrs);
    }
  }

  /** The clients of a list, one after another. */
  function SeedEach(db: Db, rows: seq<(Client, Attributes)>): Db {
    if rows == [] then db else SeedClient(SeedEach(db, DropLast(rows)), Last(rows).0, Last(rows).1)
  }

  function SeedCount(db: Db, rows: seq<(Client, Attributes)>): nat {
    if rows == [] then 0
    else SeedCount(db, DropLast(rows)) + if NewlySeeded(SeedEach(db, DropLast(rows)), Last(rows).0) then 1 else 0
  }

  ghost predicate Listed(rows: seq<(Client, Attributes)>, c: Client) {
    exists r :: r in rows && r.0 == c
  }

  lemma {:induction false} SeedEachKeepsSeedable(db: Db, rows: seq<(Client, Attributes)>)
    requires Seedable(db)
    ensures Seedable(SeedEach(db, rows))
  {
    if rows != [] {
      SeedEachKeepsSeedable(db, DropLast(rows));
      SeedKeepsSeedable(SeedEach(db, DropLast(rows)), Last(rows).0, Last(rows).1);
    }
  }

  /** A client not on the list keeps its rows: an excluded client gets no baseline. */
  lemma {:induction false} UnlistedUntouched(db: Db, rows: seq<(Client, Attributes)>, c: Client)
    requires Seedable(db) && !Listed(rows, c)
    ensures HistoryOf(SeedEach(db, rows), c) == HistoryOf(db, c)
  {
    if rows != [] {
      Snoc(rows);
      var init := DropLast(rows);
      assert !Listed(init, c) && Last(rows).0 != c by {
        assert Last(rows) in rows;
        assert forall r | r in init :: r in rows;
      }
      UnlistedUntouched(db, init, c);
      SeedEachKeepsSeedable(db, init);
      SeedLeavesOthers(SeedEach(db, init), Last(rows).0, Last(rows).1, c);
    }
  }

  lemma IdleStaysIdle(db: Db, c: Client, attrs: Attributes, d: Client)
    requires Seedable(db) && SeedIdle(db, d)
    ensures SeedIdle(SeedClient(db, c, attrs), d)
  {
    if d == c {
      SeededIsIdle(db, c, attrs);
    } else {
      SeedLeavesOthers(db, c, attrs, d);
    }
  }

  lemma {:induction false} ListedIsIdle(db: Db, rows: seq<(Client, Attributes)>, c: Client)
    requires Seedable(db) && (Listed(rows, c) || SeedIdle(db, c))
    ensures SeedIdle(SeedEach(db, rows), c)
  {
    if rows != [] {
      Snoc(rows);
      var init := DropLast(rows);
      SeedEachKeepsSeedable(db, init);
      if Last(rows).0 == c {
        SeededIsIdle(SeedEach(db, init), c, Last(rows).1);
      } else {
        ListedIsIdle(db, init, c);
        IdleStaysIdle(SeedEach(db, init), Last(rows).0, Last(rows).1, c);
      }
    }
  }

  /** The client has one row, a baseline, and every fact of the client is on it. */
  ghost predicate OnlyBaseline(db: Db, c: Client) {
    && HistoryOf(db, c).Keys == {0} && IsBaseline(HistoryOf(db, c)[0])
    && forall id | id in db.facts && db.facts[id].client == c :: db.facts[id].snapshotKey == HistoryOf(db, c)[0].key
  }

  lemma OneRowHoldsFacts(db: Db, c: Client)
    requires Seedable(db) && HistoryOf(db, c).Keys == {0}
    ensures OnlyBaseline(db, c)
  {
  }

  /** Every listed client without CDC history ends on its baseline alone. */
  lemma {:induction false} ListedIsSeeded(db: Db, rows: seq<(Client, Attributes)>, c: Client)
    requires Seedable(db) && Listed(rows, c) && !HasRealRows(HistoryOf(db, c))
    ensures OnlyBaseline(SeedEach(db, rows), c)
  {
    Snoc(rows);
    var init, last := DropLast(rows), Last(rows);
    SeedEachKeepsSeedable(db, init);
    SeedEachKeepsSeedable(db, rows);
    if Listed(init, c) {
      ListedIsSeeded(db, init, c);
    } else {
      UnlistedUntouched(db, init, c);
    }
    if last.0 == c {
      SeedLeavesOneRow(SeedEach(db, init), c, last.1);
    } else {
      SeedLeavesOthers(SeedEach(db, init), last.0, last.1, c);
    }
    OneRowHoldsFacts(SeedEach(db, rows), c);
  }

  /** Seeding clients that are all idle. */
  lemma {:induction false} IdleRun(db: Db, rows: seq<(Client, Attributes)>)
    requires forall r | r in rows :: SeedIdle(db, r.0)
    ensures SeedEach(db, rows) == db.(nextKey := SeedEach(db, rows).nextKey)
    ensures SeedCount(db, rows) == 0
  {
    if rows != [] {
      Snoc(rows);
      IdleRun(db, DropLast(rows));
      assert Last(rows) in rows;
      assert HistoryOf(SeedEach(db, DropLast(rows)), Last(rows).0) == HistoryOf(db, Last(rows).0);
      IdleSeed(SeedEach(db, DropLast(rows)), Last(rows).0, Last(rows).1);
    }
  }

  const UNKNOWN := Attributes("unknown", 0, "unknown")

  ghost predicate HasStopgap(db: Db, c: Client) {
    !NoStopgap(HistoryOf(db, c))
  }

  /** The profile rows of clients not excluded, in the order read. */
  function Eligible(profile: seq<(Client, Attributes)>, excluded: set<Client>): seq<(Client, Attributes)> {
    if profile == [] then []
    else if Last(profile).0 in excluded then Eligible(DropLast(profile), excluded)
    else Eligible(DropLast(profile), excluded) + [Last(profile)]
  }

  /** The clients with a stopgap row left that no profile row and no exclusion accounts for, in
      any order, with sentinel values. */
  ghost predicate OrphansOf(mid: Db, profile: seq<(Client, Attributes)>, excluded: set<Client>,
                            orphans: seq<(Client, Attributes)>) {
    && (forall r | r in orphans :: r.1 == UNKNOWN)
    && forall c :: Listed(orphans, c) <==> HasStopgap(mid, c) && !Listed(profile, c) && c !in excluded
  }

  /** scd2_baseline_seed: profile clients first, then orphans. */
  ghost predicate IsSeedRun(db: Db, profile: seq<(Client, Attributes)>, excluded: set<Client>,
                            orphans: seq<(Client, Attributes)>, after: Db) {
    var mid := SeedEach(db, Eligible(profile, excluded));
    OrphansOf(mid, profile, excluded, orphans) && after == SeedEach(mid, orphans)
  }

  lemma {:induction false} EligibleRows(profile: seq<(Client, Attributes)>, excluded: set<Client>, r: (Client, Attributes))
    ensures r in Eligible(profile, excluded) <==> r in profile && r.0 !in excluded
  {
    if profile != [] {
      Snoc(profile);
      EligibleRows(DropLast(profile), excluded, r);
    }
  }

  lemma EligibleClients(profile: seq<(Client, Attributes)>, excluded: set<Client>, c: Client)
    ensures Listed(Eligible(profile, excluded), c) <==> Listed(profile, c) && c !in excluded
  {
  }

  lemma {:induction false} SeedingAddsNoStopgap(db: Db, rows: seq<(Client, Attributes)>, c: Client)
    requires Seedable(db) && HasStopgap(SeedEach(db, rows), c)
    ensures HasStopgap(db, c)
  {
    if rows != [] {
      var mid := SeedEach(db, DropLast(rows));
      SeedEachKeepsSeedable(db, DropLast(rows));
      if Last(rows).0 != c {
        SeedLeavesOthers(mid, Last(rows).0, Last(rows).1, c);
      } else if !HasRealRows(HistoryOf(mid, c)) {
        SeedLeavesOneRow(mid, c, Last(rows).1);
      }
      SeedingAddsNoStopgap(db, DropLast(rows), c);
    }
  }

  lemma {:induction false} IdleUntouched(db: Db, rows: seq<(Client, Attributes)>, c: Client)
    requires Seedable(db) && SeedIdle(db, c)
    ensures HistoryOf(SeedEach(db, rows), c) == HistoryOf(db, c)
  {
    if rows != [] {
      var mid := SeedEach(db, DropLast(rows));
      SeedEachKeepsSeedable(db, DropLast(rows));
      IdleUntouched(db, DropLast(rows), c);
      if Last(rows).0 == c {
        IdleSeed(mid, c, Last(rows).1);
      } else {
        SeedLeavesOthers(mid, Last(rows).0, Last(rows).1, c);
      }
    }
  }

  lemma {:induction false} SeedEachKeepsTables(db: Db, rows: seq<(Client, Attributes)>)
    ensures SeedEach(db, rows).watermark == db.watermark
    ensures db.nextKey <= SeedEach(db, rows).nextKey
    ensures SeedEach(db, rows).facts.Keys == db.facts.Keys
    ensures forall id | id in db.facts :: SeedEach(db, rows).facts[id].day == db.facts[id].day
  {
    if rows != [] {
      SeedEachKeepsTables(db, DropLast(rows));
      SeedKeepsTables(SeedEach(db, DropLast(rows)), Last(rows).0, Last(rows).1);
    }
  }

  /** A client with CDC history or a baseline alone, or with nothing to seed it for, keeps its rows. */
  lemma SeedRunLeaves(db: Db, profile: seq<(Client, Attributes)>, excluded: set<Client>,
                      orphans: seq<(Client, Attributes)>, after: Db, c: Client)
    requires Seedable(db) && IsSeedRun(db, profile, excluded, orphans, after)
    requires var h := HistoryOf(db, c);
      || (exists l :: l in h && 0 < l)
      || (0 in h && forall l | l in h :: 0 <= l)
      || ((forall r | r in profile :: r.0 != c) && forall l | l in h :: 0 <= l)
    ensures HistoryOf(after, c) == HistoryOf(db, c)
  {
    var rows := Eligible(profile, excluded);
    var mid := SeedEach(db, rows);
    SeedEachKeepsSeedable(db, rows);
    if SeedIdle(db, c) {
      IdleUntouched(db, rows, c);
      IdleUntouched(mid, orphans, c);
    } else {
      EligibleClients(profile, excluded, c);
      UnlistedUntouched(db, rows, c);
      UnlistedUntouched(mid, orphans, c);
    }
  }

  /** A whole run: every profile client that is not excluded, and every orphan, ends on its
      baseline alone unless it has CDC history; an excluded client keeps its rows. */
  lemma SeedRunOutcome(db: Db, profile: seq<(Client, Attributes)>, excluded: set<Client>,
                       orphans: seq<(Client, Attributes)>, after: Db, c: Client)
    requires Seedable(db) && IsSeedRun(db, profile, excluded, orphans, after)
    ensures Seedable(after)
    ensures c in excluded ==> HistoryOf(after, c) == HistoryOf(db, c)
    ensures var h := HistoryOf(db, c);
      c !in excluded && (forall l | l in h :: l <= 0) && ((exists r :: r in profile && r.0 == c) || exists l :: l in h && l < 0) ==>
        OnlyBaseline(after, c)
  {
    var rows := Eligible(profile, excluded);
    var mid := SeedEach(db, rows);
    SeedEachKeepsSeedable(db, rows);
    SeedEachKeepsSeedable(mid, orphans);
    EligibleClients(profile, excluded, c);
    if !Listed(rows, c) {
      UnlistedUntouched(db, rows, c);
      if Listed(orphans, c) {
        if !HasRealRows(HistoryOf(db, c)) {
          ListedIsSeeded(mid, orphans, c);
        }
      } else {
        UnlistedUntouched(mid, orphans, c);
      }
    } else {
      if !HasRealRows(HistoryOf(db, c)) {
        ListedIsSeeded(db, rows, c);
      }
      UnlistedUntouched(mid, orphans, c);
      OneRowIfBaseline(mid, after, c);
    }
  }

  lemma OneRowIfBaseline(mid: Db, after: Db, c: Client)
    requires Seedable(after) && HistoryOf(after, c) == HistoryOf(mid, c)
    ensures OnlyBaseline(mid, c) ==> OnlyBaseline(after, c)
  {
  }

  /** A second run over the same profile and exclusions seeds nobody and changes no table. */
  lemma SecondSeedIsIdle(db: Db, profile: seq<(Client, Attributes)>, excluded: set<Client>,
                         orphans: seq<(Client, Attributes)>, after: Db,
                         again: seq<(Client, Attributes)>, last: Db)
    requires Seedable(db) && IsSeedRun(db, profile, excluded, orphans, after)
    requires IsSeedRun(after, profile, excluded, again, last)
    ensures last == after.(nextKey := last.nextKey)
    ensures SeedCount(after, Eligible(profile, excluded)) == 0
    ensures SeedCount(SeedEach(after, Eligible(profile, excluded)), again) == 0
  {
    var rows := Eligible(profile, excluded);
    var mid := SeedEach(db, rows);
    SeedEachKeepsSeedable(db, rows);
    forall r | r in rows
      ensures SeedIdle(after, r.0)
    {
      assert Listed(rows, r.0);
      ListedIsIdle(db, rows, r.0);
      ListedIsIdle(mid, orphans, r.0);
    }
    IdleRun(after, rows);
    var mid2 := SeedEach(after, rows);
    forall r | r in again
      ensures SeedIdle(mid2, r.0)
    {
      assert Listed(again, r.0);
      assert HistoryOf(mid2, r.0) == HistoryOf(after, r.0);
      SeedingAddsNoStopgap(mid, orphans, r.0);
      ListedIsIdle(mid, orphans, r.0);
    }
    IdleRun(mid2, again);
  }

  function SeedRunCount(db: Db, profile: seq<(Client, Attributes)>, excluded: set<Client>,
                        orphans: seq<(Client, Attributes)>): nat {
    var rows := Eligible(profile, excluded);
    SeedCount(db, rows) + SeedCount(SeedEach(db, rows), orphans)
  }

  /** The clients of a set in some order, with sentinel values. */
  ghost predicate SentinelList(clients: set<Client>, rows: seq<(Client, Attributes)>) {
    (forall r | r in rows :: r.1 == UNKNOWN) && forall c :: Listed(rows, c) <==> c in clients
  }

  lemma OneMoreSentinel(clients: set<Client>, rows: seq<(Client, Attributes)>, c: Client)
    requires SentinelList(clients, rows)
    ensures SentinelList(clients + {c}, rows + [(c, UNKNOWN)])
  {
  }

  /** The set the driver computes is the set of orphans. */
  lemma OrphansFound(mid: Db, profile: seq<(Client, Attributes)>, excluded: set<Client>,
                     todo: set<Client>, orphans: seq<(Client, Attributes)>)
    requires todo == (set c | c in mid.snapshots && StopgapKeys(mid.snapshots[c]) != {})
                     - (set r | r in profile :: r.0) - excluded
    requires SentinelList(todo, orphans)
    ensures OrphansOf(mid, profile, excluded, orphans)
  {
    forall c
      ensures c in todo <==> HasStopgap(mid, c) && !Listed(profile, c) && c !in excluded
    {
      var h := HistoryOf(mid, c);
      assert HasStopgap(mid, c) <==> StopgapKeys(h) != {} by {
        if HasStopgap(mid, c) {
          var l :| l in h && l < 0;
          assert h[l].key in StopgapKeys(h);
        }
        if StopgapKeys(h) != {} {
          var k := Pick(StopgapKeys(h));
        }
      }
    }
  }
}

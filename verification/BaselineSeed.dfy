/** The baseline row of a client and the removal of its stopgap rows
(scd2_baseline_seed in layer3_warehouse.py, earliest_op_per_client in transforms.py). */
module BaselineSeed {
  import opened Model
  import opened Histories
  import opened ClientCdc
  import opened Database
  import opened FactIntegrity

  /** Of the first n records, i is the earliest of client c: the first one, in file order,
      with the client's lowest lsn. */
  ghost predicate EarliestAt(records: seq<CdcRecord>, n: nat, c: Client, i: nat)
    requires n <= |records|
  {
    && i < n && records[i].client == c
    && forall j | 0 <= j < n && records[j].client == c ::
         records[i].lsn <= records[j].lsn && (j < i ==> records[i].lsn < records[j].lsn)
  }

  /** op is the client's operation at its lowest lsn. */
  ghost predicate EarliestOp(records: seq<CdcRecord>, c: Client, op: Op) {
    exists i: nat :: EarliestAt(records, |records|, c, i) && records[i].op == op
  }

  ghost predicate EarliestOps(records: seq<CdcRecord>, ops: map<Client, Op>) {
    && (forall r | r in records :: r.client in ops)
    && forall c | c in ops :: EarliestOp(records, c, ops[c])
  }

  /** at names the earliest record of each client met so far. */
  ghost predicate Scanned(records: seq<CdcRecord>, n: nat, at: map<Client, int>)
    requires n <= |records|
  {
    && (forall j | 0 <= j < n :: records[j].client in at)
    && forall c | c in at :: 0 <= at[c] && EarliestAt(records, n, c, at[c])
  }

  lemma ScanOne(records: seq<CdcRecord>, n: nat, at: map<Client, int>)
    requires n < |records| && Scanned(records, n, at)
    ensures var c := records[n].client;
      Scanned(records, n + 1, if c !in at || records[n].lsn < records[at[c]].lsn then at[c := n] else at)
  {
  }

  /** earliest_op_per_client. */
  method EarliestOpPerClient(records: seq<CdcRecord>) returns (ops: map<Client, Op>)
    ensures EarliestOps(records, ops)
  {
    var earliest: map<Client, (int, Op)> := map[];
    ghost var at: map<Client, int> := map[];
    var n := 0;
    while n < |records|
      invariant 0 <= n <= |records| && Scanned(records, n, at)
      invariant earliest.Keys == at.Keys
      invariant forall c | c in at :: earliest[c] == (records[at[c]].lsn, records[at[c]].op)
    {
      var r := records[n];
      ScanOne(records, n, at);
      if r.client !in earliest || r.lsn < earliest[r.client].0 {
        earliest, at := earliest[r.client := (r.lsn, r.op)], at[r.client := n];
      }
      n := n + 1;
    }
    ops := map c | c in earliest :: earliest[c].1;
    ScannedAll(records, at, ops);
  }

  lemma ScannedAll(records: seq<CdcRecord>, at: map<Client, int>, ops: map<Client, Op>)
    requires Scanned(records, |records|, at) && ops.Keys == at.Keys
    requires forall c | c in at :: ops[c] == records[at[c]].op
    ensures EarliestOps(records, ops)
  {
    forall c | c in ops
      ensures EarliestOp(records, c, ops[c])
    {
      assert EarliestAt(records, |records|, c, at[c]);
    }
  }

  /** The earliest record of a client is unique, so the clients excluded from seeding are
      exactly those whose lowest-lsn record is an insert. */
  lemma InsertFirstClients(records: seq<CdcRecord>, ops: map<Client, Op>, c: Client)
    requires EarliestOps(records, ops)
    ensures c in ops && ops[c] == InsertOp <==>
      exists i :: 0 <= i < |records| && records[i].client == c && records[i].op == InsertOp
        && (forall r | r in records && r.client == c :: records[i].lsn <= r.lsn)
        && forall j | 0 <= j < i :: records[j].client != c || records[i].lsn < records[j].lsn
  {
    if c in ops {
      var i: nat :| EarliestAt(records, |records|, c, i) && records[i].op == ops[c];
      forall k | 0 <= k < |records| && records[k].client == c
          && (forall r | r in records && r.client == c :: records[k].lsn <= r.lsn)
          && forall j | 0 <= j < k :: records[j].client != c || records[k].lsn < records[j].lsn
        ensures k == i
      {
        assert records[i] in records;
      }
    }
  }

  lemma SameEarliest(a: seq<CdcRecord>, b: seq<CdcRecord>, c: Client, x: Op, y: Op)
    requires EarliestOp(a, c, x) && EarliestOp(b, c, y)
    requires forall r :: r in a <==> r in b
    requires forall r, s | r in a && s in a && r.client == s.client && r.lsn == s.lsn :: r == s
    ensures x == y
  {
    var i: nat :| EarliestAt(a, |a|, c, i) && a[i].op == x;
    var j: nat :| EarliestAt(b, |b|, c, j) && b[j].op == y;
    assert a[i] in b && b[j] in a;
    var k :| 0 <= k < |b| && b[k] == a[i];
    var m :| 0 <= m < |a| && a[m] == b[j];
    assert b[j].lsn <= b[k].lsn && a[i].lsn <= a[m].lsn;
    assert a[i] == b[j];
  }

  lemma SameClients(a: seq<CdcRecord>, b: seq<CdcRecord>, x: map<Client, Op>, y: map<Client, Op>, c: Client)
    requires EarliestOps(a, x) && EarliestOps(b, y) && c in x
    requires forall r :: r in a ==> r in b
    ensures c in y
  {
  }

  /** With one record per (client, lsn) the result does not depend on the file order. */
  lemma FileOrderIrrelevant(a: seq<CdcRecord>, b: seq<CdcRecord>, x: map<Client, Op>, y: map<Client, Op>)
    requires EarliestOps(a, x) && EarliestOps(b, y)
    requires forall r :: r in a <==> r in b
    requires forall r, s | r in a && s in a && r.client == s.client && r.lsn == s.lsn :: r == s
    ensures x == y
  {
    forall c
      ensures c in x <==> c in y
      ensures c in x && c in y ==> x[c] == y[c]
    {
      if c in x {
        SameClients(a, b, x, y, c);
      }
      if c in y {
        SameClients(b, a, y, x, c);
      }
      if c in x && c in y {
        SameEarliest(a, b, c, x[c], y[c]);
      }
    }
  }

  /** A version that has always held and holds now. */
  ghost predicate IsBaseline(v: Version) {
    v.validFrom == BEGINNING_OF_TIME && v.validTo == END_OF_TIME && v.isCurrent
  }

  /** CDC history proper: a row with an lsn above 0. */
  predicate HasRealRows(h: History) {
    exists l | l in h :: 0 < l
  }

  function StopgapKeys(h: History): set<int> {
    set l | l in h && l < 0 :: h[l].key
  }

  /** The INSERT ... ON CONFLICT DO NOTHING of the baseline row; a key is drawn either way. */
  function WithBaseline(db: Db, c: Client, attrs: Attributes): Db {
    db.(
      snapshots := db.snapshots[c := Append(HistoryOf(db, c), 0,
        Version(db.nextKey, attrs, BEGINNING_OF_TIME, END_OF_TIME, true, false))],
      nextKey := db.nextKey + 1)
  }

  /** _repoint_and_clear_stopgap_snapshots. */
  function ClearStopgaps(db: Db, c: Client, realKey: int): Db {
    var stopgaps := StopgapKeys(HistoryOf(db, c));
    if stopgaps == {} then db
    else DeleteKeys(db.(facts := Redirect(db.facts, stopgaps, realKey)), stopgaps)
  }

  /** _seed_baseline_and_repoint. */
  function SeedClient(db: Db, c: Client, attrs: Attributes): Db {
    if HasRealRows(HistoryOf(db, c)) then db
    else
      var with := WithBaseline(db, c, attrs);
      ClearStopgaps(with, c, HistoryOf(with, c)[0].key)
  }

  /** Whether that call counts as a newly seeded client. */
  predicate NewlySeeded(db: Db, c: Client) {
    !HasRealRows(HistoryOf(db, c)) && 0 !in HistoryOf(db, c)
  }

  lemma BaselineKeepsIntegrity(db: Db, c: Client, attrs: Attributes)
    requires KeysUnique(db) && FactsAnchored(db)
    ensures KeysUnique(WithBaseline(db, c, attrs)) && FactsAnchored(WithBaseline(db, c, attrs))
  {
    var with := WithBaseline(db, c, attrs);
    var s := ClientState(HistoryOf(with, c), WatermarkOf(db, c), with.nextKey);
    InjectKeepsKeys(db, c, s, 0);
    forall d, l, k | IsRow(with, d, l, k)
      ensures IsRow(Inject(db, c, s), d, l, k)
    {
    }
    forall d, l | l in HistoryOf(db, d)
      ensures Persists(db, with, d, l)
    {
    }
    PersistingRowsKeepAnchors(db, with);
  }

  /** The facts on a client's stopgap rows are the client's own. */
  lemma StopgapFacts(db: Db, c: Client, id: FactId)
    requires KeysUnique(db) && FactsAnchored(db)
    requires id in Referring(db, StopgapKeys(HistoryOf(db, c)))
    ensures db.facts[id].client == c
  {
    var f, h := db.facts[id], HistoryOf(db, c);
    var l :| l in h && l < 0 && h[l].key == f.snapshotKey;
    assert IsRow(db, c, l, f.snapshotKey) && Anchored(db, f);
    var m :| AnchoredAt(db, f, m);
  }

  /** Moving the facts off the stopgap rows before deleting those never breaks a reference. */
  lemma ClearingKeepsIntegrity(db: Db, c: Client)
    requires KeysUnique(db) && FactsAnchored(db) && 0 in HistoryOf(db, c)
    requires HistoryOf(db, c)[0].validFrom == BEGINNING_OF_TIME
    requires forall id | id in db.facts :: BEGINNING_OF_TIME <= Midnight(db.facts[id].day)
    ensures var after := ClearStopgaps(db, c, HistoryOf(db, c)[0].key);
      KeysUnique(after) && FactsAnchored(after)
  {
    var h := HistoryOf(db, c);
    var stopgaps := StopgapKeys(h);
    assert IsRow(db, c, 0, h[0].key);
    forall l | l in h && l < 0
      ensures h[l].key != h[0].key
    {
      assert IsRow(db, c, l, h[l].key);
    }
    forall id | id in Referring(db, stopgaps)
      ensures db.facts[id].client == c
    {
      StopgapFacts(db, c, id);
    }
    RedirectKeepsIntegrity(db, c, stopgaps, 0);
    DeletingKeepsIntegrity(db.(facts := Redirect(db.facts, stopgaps, h[0].key)), stopgaps);
  }

  /** Clearing takes out exactly the stopgap rows. */
  lemma ClearedRows(db: Db, c: Client, key: int)
    requires KeysUnique(db)
    ensures HistoryOf(ClearStopgaps(db, c, key), c) == RealRows(HistoryOf(db, c))
  {
    var h := HistoryOf(db, c);
    var stopgaps := StopgapKeys(h);
    forall l | l in h
      ensures h[l].key in stopgaps <==> l < 0
    {
      assert IsRow(db, c, l, h[l].key);
      if h[l].key in stopgaps {
        var m :| m in h && m < 0 && h[m].key == h[l].key;
        assert IsRow(db, c, m, h[l].key);
      }
    }
    if stopgaps == {} {
      assert h == RealRows(h);
    } else {
      HistoryWithoutKeys(db.(facts := Redirect(db.facts, stopgaps, key)), stopgaps, c);
      assert WithoutKeys(h, stopgaps) == RealRows(h);
    }
  }

  lemma ClearingLeavesOthers(db: Db, c: Client, key: int, d: Client)
    requires KeysUnique(db) && d != c
    ensures HistoryOf(ClearStopgaps(db, c, key), d) == HistoryOf(db, d)
  {
    var h := HistoryOf(db, c);
    var stopgaps := StopgapKeys(h);
    if stopgaps != {} {
      var moved := db.(facts := Redirect(db.facts, stopgaps, key));
      SameTablesSameKeys(db, moved);
      forall k | k in stopgaps
        ensures exists l :: IsRow(moved, c, l, k)
      {
        var l :| l in h && l < 0 && h[l].key == k;
        assert IsRow(moved, c, l, k);
      }
      DeletingLeavesOthers(moved, c, stopgaps, d);
    }
  }
}

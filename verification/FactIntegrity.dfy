/** The foreign keys from the fact tables into the version table, through every statement
that rewrites either side. */
module FactIntegrity {
  import opened Model
  import opened ClientCdc
  import opened Lists
  import opened Database

  /** Surrogate key k belongs to row (c, l). */
  ghost predicate IsRow(db: Db, c: Client, l: int, k: int) {
    l in HistoryOf(db, c) && HistoryOf(db, c)[l].key == k
  }

  /** Surrogate keys are unique and were all drawn from the sequence. */
  ghost predicate KeysUnique(db: Db) {
    && (forall c, l, k {:trigger IsRow(db, c, l, k)} | IsRow(db, c, l, k) :: k < db.nextKey)
    && forall c, l, d, m, k {:trigger IsRow(db, c, l, k), IsRow(db, d, m, k)}
         | IsRow(db, c, l, k) && IsRow(db, d, m, k) :: c == d && l == m
  }

  /** The fact's version exists, belongs to the fact's client and had started by the event. */
  ghost predicate AnchoredAt(db: Db, f: Fact, l: int) {
    IsRow(db, f.client, l, f.snapshotKey) && HistoryOf(db, f.client)[l].validFrom <= Midnight(f.day)
  }

  ghost predicate Anchored(db: Db, f: Fact) {
    exists l :: AnchoredAt(db, f, l)
  }

  ghost predicate FactsAnchored(db: Db) {
    forall id | id in db.facts :: Anchored(db, db.facts[id])
  }

  /** The same, except that the version of a loose fact need not have started by the event. */
  ghost predicate HeldAt(db: Db, f: Fact, l: int, loose: bool) {
    && IsRow(db, f.client, l, f.snapshotKey)
    && (loose || HistoryOf(db, f.client)[l].validFrom <= Midnight(f.day))
  }

  ghost predicate Held(db: Db, f: Fact, loose: bool) {
    exists l :: HeldAt(db, f, l, loose)
  }

  /** The foreign keys hold and never cross clients; all facts but the loose ones are anchored. */
  ghost predicate FactsHeld(db: Db, loose: set<FactId>) {
    forall id | id in db.facts :: Held(db, db.facts[id], id in loose)
  }

  lemma AnchoredIsHeld(db: Db)
    ensures FactsAnchored(db) <==> FactsHeld(db, {})
  {
    forall id | id in db.facts
      ensures Anchored(db, db.facts[id]) <==> Held(db, db.facts[id], false)
    {
      if l :| AnchoredAt(db, db.facts[id], l) {
        assert HeldAt(db, db.facts[id], l, false);
      }
      if l :| HeldAt(db, db.facts[id], l, false) {
        assert AnchoredAt(db, db.facts[id], l);
      }
    }
  }

  /** A row is still there with its key and its start. */
  ghost predicate Persists(db: Db, after: Db, c: Client, l: int) {
    && l in HistoryOf(db, c) && l in HistoryOf(after, c)
    && HistoryOf(after, c)[l].key == HistoryOf(db, c)[l].key
    && HistoryOf(after, c)[l].validFrom == HistoryOf(db, c)[l].validFrom
  }

  ghost predicate AllPersist(db: Db, after: Db) {
    forall c, l {:trigger Persists(db, after, c, l)} | l in HistoryOf(db, c) :: Persists(db, after, c, l)
  }

  lemma PersistingRowsKeepHeld(db: Db, after: Db, loose: set<FactId>)
    requires FactsHeld(db, loose) && AllPersist(db, after) && after.facts == db.facts
    ensures FactsHeld(after, loose)
  {
    forall id | id in after.facts
      ensures Held(after, after.facts[id], id in loose)
    {
      var f := db.facts[id];
      var l :| HeldAt(db, f, l, id in loose);
      assert Persists(db, after, f.client, l);
      assert HeldAt(after, f, l, id in loose);
    }
  }

  lemma PersistingRowsKeepAnchors(db: Db, after: Db)
    requires FactsAnchored(db) && AllPersist(db, after) && after.facts == db.facts
    ensures FactsAnchored(after)
  {
    AnchoredIsHeld(db);
    PersistingRowsKeepHeld(db, after, {});
    AnchoredIsHeld(after);
  }

  /** Rows of g come from h, row n excepted, whose key is fresh. */
  ghost predicate FreshExcept(h: History, g: History, n: int, lo: int, hi: int) {
    && lo <= hi
    && forall l | l in g ::
         (l in h && g[l].key == h[l].key) || (l == n && lo <= g[l].key < hi)
  }

  lemma InjectKeepsKeys(db: Db, c: Client, s: ClientState, n: int)
    requires KeysUnique(db) && FreshExcept(HistoryOf(db, c), s.history, n, db.nextKey, s.nextKey)
    ensures KeysUnique(Inject(db, c, s))
  {
    var after := Inject(db, c, s);
    forall d, l, k | IsRow(after, d, l, k)
      ensures IsRow(db, d, l, k) || (d == c && l == n && db.nextKey <= k < after.nextKey)
      ensures k < after.nextKey
    {
      if d != c || (l in HistoryOf(db, c) && s.history[l].key == HistoryOf(db, c)[l].key) {
        assert IsRow(db, d, l, k);
      }
    }
  }

  lemma StepIsFresh(s: ClientState, e: Event)
    ensures FreshExcept(s.history, Step(s, e).history, e.lsn, s.nextKey, Step(s, e).nextKey)
    ensures s.history.Keys <= Step(s, e).history.Keys
    ensures forall l | l in s.history ::
      Step(s, e).history[l].key == s.history[l].key && Step(s, e).history[l].validFrom == s.history[l].validFrom
  {
  }

  /** apply_cdc_event never deletes a row, renames a key or moves a start. */
  lemma EventPersists(db: Db, e: Event)
    requires KeysUnique(db)
    ensures KeysUnique(HandleEvent(db, e)) && AllPersist(db, HandleEvent(db, e))
    ensures HandleEvent(db, e).facts == db.facts
  {
    var after := HandleEvent(db, e);
    HandleIsStep(db, e);
    var s := Step(Project(db, e.client), e);
    StepIsFresh(Project(db, e.client), e);
    InjectKeepsKeys(db, e.client, s, e.lsn);
    forall c, l, k | IsRow(after, c, l, k)
      ensures IsRow(Inject(db, e.client, s), c, l, k)
    {
    }
    forall c, l | l in HistoryOf(db, c)
      ensures Persists(db, after, c, l)
    {
      if c != e.client {
        HandleKeepsOthers(db, e, c);
      }
    }
  }

  /** So every reference stays as sound as it was. */
  lemma {:induction false} HandleKeepsHeld(db: Db, es: seq<Event>, loose: set<FactId>)
    requires KeysUnique(db) && FactsHeld(db, loose)
    ensures KeysUnique(Handle(db, es)) && FactsHeld(Handle(db, es), loose)
    ensures Handle(db, es).facts == db.facts
  {
    if es != [] {
      var mid := Handle(db, DropLast(es));
      HandleKeepsHeld(db, DropLast(es), loose);
      EventPersists(mid, Last(es));
      PersistingRowsKeepHeld(mid, HandleEvent(mid, Last(es)), loose);
    }
  }

  /** No row is lost over a list of events either. */
  lemma {:induction false} HandlePersists(db: Db, es: seq<Event>)
    requires KeysUnique(db)
    ensures KeysUnique(Handle(db, es)) && AllPersist(db, Handle(db, es))
  {
    if es != [] {
      var mid := Handle(db, DropLast(es));
      HandlePersists(db, DropLast(es));
      EventPersists(mid, Last(es));
      forall c, l | l in HistoryOf(db, c)
        ensures Persists(db, HandleEvent(mid, Last(es)), c, l)
      {
        assert Persists(db, mid, c, l);
        assert Persists(mid, HandleEvent(mid, Last(es)), c, l);
      }
    } else {
      forall c, l | l in HistoryOf(db, c)
        ensures Persists(db, db, c, l)
      {
      }
    }
  }

  lemma HandleKeepsIntegrity(db: Db, es: seq<Event>)
    requires KeysUnique(db) && FactsAnchored(db)
    ensures KeysUnique(Handle(db, es)) && FactsAnchored(Handle(db, es))
    ensures Handle(db, es).facts == db.facts
  {
    AnchoredIsHeld(db);
    HandleKeepsHeld(db, es, {});
    AnchoredIsHeld(Handle(db, es));
  }

  /** The facts with a foreign key among the given ones. */
  function Referring(db: Db, keys: set<int>): set<FactId> {
    set id | id in db.facts && db.facts[id].snapshotKey in keys
  }

  /** UPDATE both fact tables SET key = target WHERE key = ANY(keys). */
  function Redirect(facts: map<FactId, Fact>, keys: set<int>, target: int): map<FactId, Fact> {
    map id | id in facts ::
      if facts[id].snapshotKey in keys then facts[id].(snapshotKey := target) else facts[id]
  }

  /** A DELETE passes the foreign key check. */
  ghost predicate DeleteAllowed(db: Db, keys: set<int>) {
    Referring(db, keys) == {}
  }

  /** Moving facts onto a row of their own client.  Those for which it starts too late are loose. */
  lemma RedirectKeepsHeld(db: Db, c: Client, keys: set<int>, l: int, loose: set<FactId>)
    requires KeysUnique(db) && FactsAnchored(db) && l in HistoryOf(db, c)
    requires HistoryOf(db, c)[l].key !in keys
    requires forall id | id in Referring(db, keys) ::
      db.facts[id].client == c && (id in loose || HistoryOf(db, c)[l].validFrom <= Midnight(db.facts[id].day))
    ensures var after := db.(facts := Redirect(db.facts, keys, HistoryOf(db, c)[l].key));
      KeysUnique(after) && FactsHeld(after, loose) && DeleteAllowed(after, keys)
  {
    var after := db.(facts := Redirect(db.facts, keys, HistoryOf(db, c)[l].key));
    SameTablesSameKeys(db, after);
    forall id | id in after.facts
      ensures Held(after, after.facts[id], id in loose) && after.facts[id].snapshotKey !in keys
    {
      var f := db.facts[id];
      if id in Referring(db, keys) {
        assert HeldAt(after, after.facts[id], l, id in loose);
      } else {
        assert Anchored(db, f);
        var m :| AnchoredAt(db, f, m);
        assert HeldAt(after, f, m, id in loose);
      }
    }
  }

  lemma RedirectKeepsIntegrity(db: Db, c: Client, keys: set<int>, l: int)
    requires KeysUnique(db) && FactsAnchored(db) && l in HistoryOf(db, c)
    requires HistoryOf(db, c)[l].key !in keys
    requires forall id | id in Referring(db, keys) ::
      db.facts[id].client == c && HistoryOf(db, c)[l].validFrom <= Midnight(db.facts[id].day)
    ensures var after := db.(facts := Redirect(db.facts, keys, HistoryOf(db, c)[l].key));
      KeysUnique(after) && FactsAnchored(after) && DeleteAllowed(after, keys)
  {
    RedirectKeepsHeld(db, c, keys, l, {});
    AnchoredIsHeld(db.(facts := Redirect(db.facts, keys, HistoryOf(db, c)[l].key)));
  }

  lemma SameTablesSameKeys(db: Db, after: Db)
    requires KeysUnique(db) && after.snapshots == db.snapshots && db.nextKey <= after.nextKey
    ensures KeysUnique(after)
  {
    forall c, l, k | IsRow(after, c, l, k)
      ensures IsRow(db, c, l, k)
    {
    }
  }

  /** DELETE ... WHERE risk_snapshot_key = ANY(keys). */
  function DeleteKeys(db: Db, keys: set<int>): Db {
    db.(snapshots := map c | c in db.snapshots :: WithoutKeys(db.snapshots[c], keys))
  }

  function WithoutKeys(h: History, keys: set<int>): History {
    map l | l in h && h[l].key !in keys :: h[l]
  }

  lemma HistoryWithoutKeys(db: Db, keys: set<int>, c: Client)
    ensures HistoryOf(DeleteKeys(db, keys), c) == WithoutKeys(HistoryOf(db, c), keys)
  {
  }

  lemma WithoutAbsentKeys(h: History, keys: set<int>)
    requires forall l | l in h :: h[l].key !in keys
    ensures WithoutKeys(h, keys) == h
  {
    forall l | l in h
      ensures h[l].key !in keys && l in WithoutKeys(h, keys)
    {
    }
  }

  /** Deleting rows no fact refers to. */
  lemma DeletingKeepsIntegrity(db: Db, keys: set<int>)
    requires KeysUnique(db) && FactsAnchored(db) && DeleteAllowed(db, keys)
    ensures KeysUnique(DeleteKeys(db, keys)) && FactsAnchored(DeleteKeys(db, keys))
  {
    var after := DeleteKeys(db, keys);
    forall d, l, k | IsRow(after, d, l, k)
      ensures IsRow(db, d, l, k)
    {
      HistoryWithoutKeys(db, keys, d);
    }
    forall id | id in after.facts
      ensures Anchored(after, after.facts[id])
    {
      var f := db.facts[id];
      assert Anchored(db, f);
      var l :| AnchoredAt(db, f, l);
      assert id !in Referring(db, keys);
      HistoryWithoutKeys(db, keys, f.client);
      assert AnchoredAt(after, f, l);
    }
  }

  /** Deleting keys that all belong to one client. */
  lemma DeletingLeavesOthers(db: Db, c: Client, keys: set<int>, d: Client)
    requires KeysUnique(db) && d != c
    requires forall k | k in keys :: exists l :: IsRow(db, c, l, k)
    ensures HistoryOf(DeleteKeys(db, keys), d) == HistoryOf(db, d)
  {
    HistoryWithoutKeys(db, keys, d);
    forall l | l in HistoryOf(db, d)
      ensures HistoryOf(db, d)[l].key !in keys
    {
      assert IsRow(db, d, l, HistoryOf(db, d)[l].key);
    }
    WithoutAbsentKeys(HistoryOf(db, d), keys);
  }

  /** Deleting by surrogate key takes out that one row. */
  lemma DeletingOneRow(db: Db, c: Client, x: int, key: int)
    requires KeysUnique(db) && IsRow(db, c, x, key)
    ensures HistoryOf(DeleteKeys(db, {key}), c) == HistoryOf(db, c) - {x}
  {
    HistoryWithoutKeys(db, {key}, c);
    var h := HistoryOf(db, c);
    forall l | l in h && h[l].key == key
      ensures l == x
    {
      assert IsRow(db, c, l, key);
    }
    assert WithoutKeys(h, {key}) == h - {x};
  }
}

/** How change records get their arrival order: upserts into the raw and the staging table,
each with a sequence column (layer1_raw.py, layer2_staging.py, migration
010_cdc_ingestion_order.sql).
*/
module Landing {
  import opened Model
  import opened Lists
  import opened FiniteSets

  /** The primary key of both tables. */
  datatype EventKey = EventKey(client: Client, lsn: int)

  function KeyOf(e: Event): EventKey {
    EventKey(e.client, e.lsn)
  }

  datatype Entry = Entry(seqNo: int, event: Event)

  /** A table and the next value of its bigserial column. */
  datatype Table = Table(rows: map<EventKey, Entry>, next: int)

  const EMPTY := Table(map[], 0)

  /** INSERT ... ON CONFLICT (client_id, lsn) DO UPDATE: the sequence value is drawn in either
      case, but an existing row keeps its own. */
  function Upsert(t: Table, e: Event): Table {
    var k := KeyOf(e);
    Table(t.rows[k := Entry(if k in t.rows then t.rows[k].seqNo else t.next, e)], t.next + 1)
  }

  function UpsertAll(t: Table, es: seq<Event>): Table {
    if es == [] then t else Upsert(UpsertAll(t, DropLast(es)), Last(es))
  }

  /** Sequence numbers are distinct and were all drawn. */
  ghost predicate WellNumbered(t: Table) {
    && (forall k | k in t.rows :: t.rows[k].seqNo < t.next && KeyOf(t.rows[k].event) == k)
    && forall k, m | k in t.rows && m in t.rows && t.rows[k].seqNo == t.rows[m].seqNo :: k == m
  }

  ghost predicate Before(t: Table, k: EventKey, m: EventKey)
    requires k in t.rows && m in t.rows
  {
    t.rows[k].seqNo < t.rows[m].seqNo
  }

  /** The rows of a table, ORDER BY the sequence column. */
  ghost predicate ListsInOrder(t: Table, es: seq<Event>) {
    && (forall i | 0 <= i < |es| :: KeyOf(es[i]) in t.rows && t.rows[KeyOf(es[i])].event == es[i])
    && (forall i, j | 0 <= i < j < |es| :: Before(t, KeyOf(es[i]), KeyOf(es[j])))
    && forall k | k in t.rows :: exists i :: 0 <= i < |es| && KeyOf(es[i]) == k
  }

  lemma UpsertKeepsNumbers(t: Table, e: Event)
    requires WellNumbered(t)
    ensures WellNumbered(Upsert(t, e))
    ensures forall k | k in t.rows :: k in Upsert(t, e).rows && Upsert(t, e).rows[k].seqNo == t.rows[k].seqNo
    ensures KeyOf(e) !in t.rows ==> Upsert(t, e).rows[KeyOf(e)].seqNo == t.next
  {
  }

  lemma {:induction false} UpsertAllKeepsNumbers(t: Table, es: seq<Event>)
    requires WellNumbered(t)
    ensures WellNumbered(UpsertAll(t, es)) && t.next <= UpsertAll(t, es).next
    ensures forall k | k in t.rows ::
      k in UpsertAll(t, es).rows && UpsertAll(t, es).rows[k].seqNo == t.rows[k].seqNo
    ensures forall k | k in UpsertAll(t, es).rows && k !in t.rows :: t.next <= UpsertAll(t, es).rows[k].seqNo
  {
    if es != [] {
      UpsertAllKeepsNumbers(t, DropLast(es));
      UpsertKeepsNumbers(UpsertAll(t, DropLast(es)), Last(es));
    }
  }

  /** The first place of a key in a list of records. */
  ghost predicate FirstAt(es: seq<Event>, k: EventKey, i: nat) {
    i < |es| && KeyOf(es[i]) == k && forall j | 0 <= j < i :: KeyOf(es[j]) != k
  }

  /** Rows are numbered in the order in which their keys first landed, however often they are
      landed again. */
  lemma {:induction false} NumberedByFirstLanding(es: seq<Event>, k: EventKey, i: nat)
    requires FirstAt(es, k, i)
    ensures k in UpsertAll(EMPTY, es).rows && UpsertAll(EMPTY, es).rows[k].seqNo == i
    ensures UpsertAll(EMPTY, es).next == |es|
  {
    var init := DropLast(es);
    CountsLandings(es);
    CountsLandings(init);
    if i == |es| - 1 {
      NotLanded(init, k);
    } else {
      assert FirstAt(init, k, i);
      NumberedByFirstLanding(init, k, i);
    }
  }

  lemma {:induction false} CountsLandings(es: seq<Event>)
    ensures UpsertAll(EMPTY, es).next == |es|
  {
    if es != [] {
      CountsLandings(DropLast(es));
    }
  }

  lemma {:induction false} NotLanded(es: seq<Event>, k: EventKey)
    requires forall j | 0 <= j < |es| :: KeyOf(es[j]) != k
    ensures k !in UpsertAll(EMPTY, es).rows
  {
    if es != [] {
      NotLanded(DropLast(es), k);
    }
  }

  /** The last place of a key in a list of records. */
  ghost predicate LastAt(es: seq<Event>, k: EventKey, n: int) {
    0 <= n < |es| && KeyOf(es[n]) == k && forall j | n < j < |es| :: KeyOf(es[j]) != k
  }

  /** A key landed more than once holds the values it landed with last; a key never landed keeps the
      row it had. */
  lemma {:induction false} LatestValuesWin(t: Table, es: seq<Event>, k: EventKey)
    ensures (forall n | 0 <= n < |es| :: KeyOf(es[n]) != k) ==>
      (k in UpsertAll(t, es).rows <==> k in t.rows) && (k in t.rows ==> UpsertAll(t, es).rows[k] == t.rows[k])
    ensures (exists n :: 0 <= n < |es| && KeyOf(es[n]) == k) ==>
      exists n :: LastAt(es, k, n) && k in UpsertAll(t, es).rows && UpsertAll(t, es).rows[k].event == es[n]
  {
    if es != [] {
      var init := DropLast(es);
      LatestValuesWin(t, init, k);
      assert forall n | 0 <= n < |init| :: init[n] == es[n];
      if KeyOf(Last(es)) == k {
        assert LastAt(es, k, |init|);
      } else if n :| 0 <= n < |es| && KeyOf(es[n]) == k {
        assert KeyOf(init[n]) == k;
        var m :| LastAt(init, k, m) && UpsertAll(t, init).rows[k].event == init[m];
        assert LastAt(es, k, m);
      }
    }
  }

  /** Staging numbers its rows the way raw does, and what is not staged yet comes last in raw. */
  ghost predicate Aligned(raw: Table, staged: Table) {
    && WellNumbered(raw) && WellNumbered(staged)
    && staged.rows.Keys <= raw.rows.Keys
    && (forall k, m | k in staged.rows && m in staged.rows :: Before(staged, k, m) <==> Before(raw, k, m))
    && forall k, m | k in staged.rows && m in raw.rows && m !in staged.rows :: Before(raw, k, m)
  }

  /** Landing more records, new and repeated, keeps the two tables aligned. */
  lemma LandingKeepsAligned(raw: Table, staged: Table, es: seq<Event>)
    requires Aligned(raw, staged)
    ensures Aligned(UpsertAll(raw, es), staged)
  {
    UpsertAllKeepsNumbers(raw, es);
    var after := UpsertAll(raw, es);
    forall k, m | k in staged.rows && m in after.rows && m !in staged.rows
      ensures Before(after, k, m)
    {
      if m in raw.rows {
        assert Before(raw, k, m);
      }
    }
    forall k, m | k in staged.rows && m in staged.rows
      ensures Before(staged, k, m) <==> Before(after, k, m)
    {
      assert Before(after, k, m) <==> Before(raw, k, m);
    }
  }

  /** What staging knows half-way through: the rows copied so far hold raw's values. */
  ghost predicate CopiedSoFar(raw: Table, staged: Table, es: seq<Event>, n: nat)
    requires n <= |es|
  {
    forall i | 0 <= i < n :: KeyOf(es[i]) in staged.rows && staged.rows[KeyOf(es[i])].event == es[i]
  }

  /** The next row in raw order is the first one not staged, or staged already. */
  lemma NextComesAfterStaged(raw: Table, staged: Table, es: seq<Event>, n: nat, m: EventKey)
    requires Aligned(raw, staged) && ListsInOrder(raw, es) && n < |es| && CopiedSoFar(raw, staged, es, n)
    requires m in raw.rows && m !in staged.rows && m != KeyOf(es[n])
    ensures Before(raw, KeyOf(es[n]), m)
  {
  }

  lemma CopyOne(raw: Table, staged: Table, es: seq<Event>, n: nat)
    requires Aligned(raw, staged) && ListsInOrder(raw, es) && n < |es| && CopiedSoFar(raw, staged, es, n)
    ensures Aligned(raw, Upsert(staged, es[n])) && CopiedSoFar(raw, Upsert(staged, es[n]), es, n + 1)
  {
    var after, x := Upsert(staged, es[n]), KeyOf(es[n]);
    UpsertKeepsNumbers(staged, es[n]);
    forall k, m | k in after.rows && m in after.rows
      ensures Before(after, k, m) <==> Before(raw, k, m)
    {
      if k in staged.rows && m in staged.rows {
        assert Before(staged, k, m) <==> Before(raw, k, m);
      } else if x !in staged.rows && (k == x) != (m == x) {
        assert Before(raw, if k == x then m else k, x);
      }
    }
    forall k, m | k in after.rows && m in raw.rows && m !in after.rows
      ensures Before(raw, k, m)
    {
      if k !in staged.rows {
        NextComesAfterStaged(raw, staged, es, n, m);
      }
    }
    forall i | 0 <= i < n + 1
      ensures KeyOf(es[i]) in after.rows && after.rows[KeyOf(es[i])].event == es[i]
    {
      if i < n {
        assert Before(raw, KeyOf(es[i]), x);
      }
    }
  }

  lemma {:induction false} CopyKeepsAligned(raw: Table, staged: Table, es: seq<Event>, n: nat)
    requires Aligned(raw, staged) && ListsInOrder(raw, es) && n <= |es|
    ensures Aligned(raw, UpsertAll(staged, es[..n])) && CopiedSoFar(raw, UpsertAll(staged, es[..n]), es, n)
  {
    if n > 0 {
      CopyKeepsAligned(raw, staged, es, n - 1);
      assert DropLast(es[..n]) == es[..n - 1] && Last(es[..n]) == es[n - 1];
      CopyOne(raw, UpsertAll(staged, es[..n - 1]), es, n - 1);
    }
  }

  /** Staging holds raw's rows, all of them and with raw's present values, in raw's order. */
  ghost predicate Mirrors(raw: Table, staged: Table) {
    && Aligned(raw, staged)
    && staged.rows.Keys == raw.rows.Keys
    && forall k | k in raw.rows :: staged.rows[k].event == raw.rows[k].event
  }

  /** A staging pass makes staging mirror raw. */
  lemma StagingMirrors(raw: Table, staged: Table, es: seq<Event>)
    requires Aligned(raw, staged) && ListsInOrder(raw, es)
    ensures Mirrors(raw, UpsertAll(staged, es))
  {
    CopyKeepsAligned(raw, staged, es, |es|);
    assert es[..|es|] == es;
    var after := UpsertAll(staged, es);
    forall k | k in raw.rows
      ensures k in after.rows && after.rows[k].event == raw.rows[k].event
    {
      var i :| 0 <= i < |es| && KeyOf(es[i]) == k;
    }
  }

  /** One load of source files followed by one staging pass. */
  datatype Pass = Pass(landed: seq<Event>, copied: seq<Event>)

  function RawAfter(passes: seq<Pass>): Table {
    if passes == [] then EMPTY else UpsertAll(RawAfter(DropLast(passes)), Last(passes).landed)
  }

  function StagedAfter(passes: seq<Pass>): Table {
    if passes == [] then EMPTY else UpsertAll(StagedAfter(DropLast(passes)), Last(passes).copied)
  }

  /** Every staging pass reads the raw table ORDER BY raw_seq. */
  ghost predicate PassesOk(passes: seq<Pass>) {
    passes != [] ==>
      PassesOk(DropLast(passes)) && ListsInOrder(RawAfter(passes), Last(passes).copied)
  }

  /** Everything landed so far, in order of landing. */
  function AllLanded(passes: seq<Pass>): seq<Event> {
    if passes == [] then [] else AllLanded(DropLast(passes)) + Last(passes).landed
  }

  lemma {:induction false} UpsertAllConcat(t: Table, a: seq<Event>, b: seq<Event>)
    ensures UpsertAll(t, a + b) == UpsertAll(UpsertAll(t, a), b)
  {
    if b == [] {
      assert a + b == a;
    } else {
      assert DropLast(a + b) == a + DropLast(b) && Last(a + b) == Last(b);
      UpsertAllConcat(t, a, DropLast(b));
    }
  }

  lemma {:induction false} RawIsAllLanded(passes: seq<Pass>)
    ensures RawAfter(passes) == UpsertAll(EMPTY, AllLanded(passes))
  {
    if passes != [] {
      RawIsAllLanded(DropLast(passes));
      UpsertAllConcat(EMPTY, AllLanded(DropLast(passes)), Last(passes).landed);
    }
  }

  lemma {:induction false} PassesMirror(passes: seq<Pass>)
    requires PassesOk(passes)
    ensures Mirrors(RawAfter(passes), StagedAfter(passes))
  {
    if passes != [] {
      PassesMirror(DropLast(passes));
      LandingKeepsAligned(RawAfter(DropLast(passes)), StagedAfter(DropLast(passes)), Last(passes).landed);
      StagingMirrors(RawAfter(passes), StagedAfter(DropLast(passes)), Last(passes).copied);
    }
  }

  lemma {:induction false} LandedHasKey(es: seq<Event>, k: EventKey)
    ensures k in UpsertAll(EMPTY, es).rows <==> exists n :: 0 <= n < |es| && KeyOf(es[n]) == k
  {
    LatestValuesWin(EMPTY, es, k);
  }

  /** After any sequence of passes the staging table holds each key that ever landed, with the values
      it landed with last. */
  lemma StagingHoldsLatest(passes: seq<Pass>, es: seq<Event>, k: EventKey)
    requires PassesOk(passes) && ListsInOrder(StagedAfter(passes), es)
    ensures (exists i :: 0 <= i < |es| && KeyOf(es[i]) == k) <==> exists n :: 0 <= n < |AllLanded(passes)| && KeyOf(AllLanded(passes)[n]) == k
    ensures forall i | 0 <= i < |es| && KeyOf(es[i]) == k ::
      exists n :: LastAt(AllLanded(passes), k, n) && AllLanded(passes)[n] == es[i]
  {
    PassesMirror(passes);
    RawIsAllLanded(passes);
    LandedHasKey(AllLanded(passes), k);
    LatestValuesWin(EMPTY, AllLanded(passes), k);
  }

  /** Arrival order survives re-landing: after any sequence of passes, with repeated and new
      records, the staging table read in staging_seq order gives each key once, with its latest
      values, in the order in which the keys first landed. */
  lemma ArrivalOrderSurvives(passes: seq<Pass>, es: seq<Event>, i: nat, j: nat, a: nat, b: nat)
    requires PassesOk(passes) && ListsInOrder(StagedAfter(passes), es) && i < |es| && j < |es|
    requires FirstAt(AllLanded(passes), KeyOf(es[i]), a) && FirstAt(AllLanded(passes), KeyOf(es[j]), b)
    ensures i < j <==> a < b
    ensures KeyOf(es[i]) in RawAfter(passes).rows && RawAfter(passes).rows[KeyOf(es[i])].event == es[i]
  {
    PassesMirror(passes);
    RawIsAllLanded(passes);
    NumberedByFirstLanding(AllLanded(passes), KeyOf(es[i]), a);
    NumberedByFirstLanding(AllLanded(passes), KeyOf(es[j]), b);
    assert Before(StagedAfter(passes), KeyOf(es[i]), KeyOf(es[j])) <==> a < b;
    if j < i {
      assert Before(StagedAfter(passes), KeyOf(es[j]), KeyOf(es[i]));
    }
  }

  function Flatten(files: seq<seq<Event>>): seq<Event> {
    if files == [] then [] else Flatten(DropLast(files)) + Last(files)
  }

  ghost predicate Smallest(t: Table, todo: set<EventKey>, k: EventKey)
    requires todo <= t.rows.Keys
  {
    k in todo && forall m | m in todo :: t.rows[k].seqNo <= t.rows[m].seqNo
  }

  /** The row with the smallest sequence number of those left. */
  method PickSmallest(t: Table, todo: set<EventKey>) returns (k: EventKey)
    requires todo <= t.rows.Keys && todo != {}
    ensures Smallest(t, todo, k)
  {
    ghost var some := Pick(todo);
    k :| k in todo;
    var rest := todo - {k};
    while rest != {}
      invariant k in todo && rest <= todo
      invariant forall m | m in todo && m !in rest :: t.rows[k].seqNo <= t.rows[m].seqNo
      decreases rest
    {
      var m :| m in rest;
      if t.rows[m].seqNo < t.rows[k].seqNo {
        k := m;
      }
      rest := rest - {m};
    }
  }

  /** es lists, in order, the rows outside todo, and those come before the rest. */
  ghost predicate ListedSoFar(t: Table, es: seq<Event>, todo: set<EventKey>) {
    && todo <= t.rows.Keys
    && (forall i | 0 <= i < |es| :: KeyOf(es[i]) in t.rows && t.rows[KeyOf(es[i])].event == es[i])
    && (forall i, j | 0 <= i < j < |es| :: Before(t, KeyOf(es[i]), KeyOf(es[j])))
    && (forall i, m | 0 <= i < |es| && m in todo :: Before(t, KeyOf(es[i]), m))
    && forall k | k in t.rows && k !in todo :: exists i :: 0 <= i < |es| && KeyOf(es[i]) == k
  }

  lemma ListOne(t: Table, es: seq<Event>, todo: set<EventKey>, k: EventKey)
    requires WellNumbered(t) && ListedSoFar(t, es, todo) && Smallest(t, todo, k)
    ensures ListedSoFar(t, es + [t.rows[k].event], todo - {k})
  {
    var more := es + [t.rows[k].event];
    assert forall i | 0 <= i < |es| :: more[i] == es[i];
    assert KeyOf(more[|es|]) == k;
    ListOneCovers(t, es, todo, k);
    ListOneOrdered(t, es, todo, k);
  }

  lemma ListOneCovers(t: Table, es: seq<Event>, todo: set<EventKey>, k: EventKey)
    requires WellNumbered(t) && ListedSoFar(t, es, todo) && Smallest(t, todo, k)
    ensures var more := es + [t.rows[k].event];
      forall m | m in t.rows && m !in todo - {k} :: exists i :: 0 <= i < |more| && KeyOf(more[i]) == m
  {
    var more := es + [t.rows[k].event];
    assert KeyOf(more[|es|]) == k;
    forall m | m in t.rows && m !in todo - {k}
      ensures exists i :: 0 <= i < |more| && KeyOf(more[i]) == m
    {
      if m != k {
        var i :| 0 <= i < |es| && KeyOf(es[i]) == m;
        assert KeyOf(more[i]) == m;
      }
    }
  }

  lemma ListOneOrdered(t: Table, es: seq<Event>, todo: set<EventKey>, k: EventKey)
    requires WellNumbered(t) && ListedSoFar(t, es, todo) && Smallest(t, todo, k)
    ensures var more := es + [t.rows[k].event];
      && (forall i | 0 <= i < |more| :: KeyOf(more[i]) in t.rows)
      && (forall i, j | 0 <= i < j < |more| :: Before(t, KeyOf(more[i]), KeyOf(more[j])))
      && forall i, m | 0 <= i < |more| && m in todo - {k} :: Before(t, KeyOf(more[i]), m)
  {
    var more := es + [t.rows[k].event];
    assert KeyOf(more[|es|]) == k;
    forall i, m | 0 <= i < |more| && m in todo - {k}
      ensures KeyOf(more[i]) in t.rows && Before(t, KeyOf(more[i]), m)
    {
      assert i < |es| ==> Before(t, KeyOf(es[i]), m);
    }
    forall i, j | 0 <= i < j < |more|
      ensures KeyOf(more[i]) in t.rows && KeyOf(more[j]) in t.rows && Before(t, KeyOf(more[i]), KeyOf(more[j]))
    {
      if j < |es| {
        assert Before(t, KeyOf(es[i]), KeyOf(es[j]));
      } else {
        assert Before(t, KeyOf(es[i]), k);
      }
    }
  }

  lemma OneMoreFile(t: Table, files: seq<seq<Event>>, f: nat)
    requires f < |files|
    ensures UpsertAll(t, Flatten(files[..f + 1])) == UpsertAll(UpsertAll(t, Flatten(files[..f])), files[f])
    ensures |Flatten(files[..f + 1])| == |Flatten(files[..f])| + |files[f]|
  {
    assert DropLast(files[..f + 1]) == files[..f] && Last(files[..f + 1]) == files[f];
    UpsertAllConcat(t, Flatten(files[..f]), files[f]);
  }

  class LandingTables {
    var raw: Table
    var staged: Table

    ghost predicate Valid()
      reads this
    {
      WellNumbered(raw) && WellNumbered(staged)
    }

    constructor ()
      ensures Valid() && raw == EMPTY && staged == EMPTY
    {
      raw, staged := EMPTY, EMPTY;
    }

    /** load of the typed raw table, file by file and row by row; no file at all is an error. */
    method Load(files: seq<seq<Event>>) returns (ok: bool, landed: nat)
      requires Valid()
      modifies this
      ensures Valid() && staged == old(staged)
      ensures ok <==> files != []
      ensures raw == UpsertAll(old(raw), Flatten(files))
      ensures landed == |Flatten(files)|
    {
      ok, landed := files != [], 0;
      var f := 0;
      while f < |files|
        invariant 0 <= f <= |files| && Valid() && staged == old(staged)
        invariant raw == UpsertAll(old(raw), Flatten(files[..f])) && landed == |Flatten(files[..f])|
      {
        ghost var before := raw;
        var i := 0;
        while i < |files[f]|
          invariant 0 <= i <= |files[f]| && Valid() && staged == old(staged)
          invariant raw == UpsertAll(before, files[f][..i]) && landed == |Flatten(files[..f])| + i
        {
          UpsertKeepsNumbers(raw, files[f][i]);
          raw := Upsert(raw, files[f][i]);
          assert DropLast(files[f][..i + 1]) == files[f][..i];
          i, landed := i + 1, landed + 1;
        }
        assert files[f][..i] == files[f];
        OneMoreFile(old(raw), files, f);
        f := f + 1;
      }
      assert files[..f] == files;
    }

    /** SELECT ... ORDER BY the sequence column. */
    static method SelectInOrder(t: Table) returns (es: seq<Event>)
      requires WellNumbered(t)
      ensures ListsInOrder(t, es)
    {
      es := [];
      var todo := t.rows.Keys;
      while todo != {}
        invariant ListedSoFar(t, es, todo)
        decreases todo
      {
        var k := PickSmallest(t, todo);
        ListOne(t, es, todo, k);
        es, todo := es + [t.rows[k].event], todo - {k};
      }
    }

    /** _stage_typed_passthrough: copies raw in raw_seq order and counts the staged rows. */
    method StageTypedPassthrough() returns (count: nat, ghost copied: seq<Event>)
      requires Valid()
      modifies this
      ensures Valid() && raw == old(raw)
      ensures ListsInOrder(raw, copied) && staged == UpsertAll(old(staged), copied)
      ensures count == |staged.rows|
      ensures Aligned(old(raw), old(staged)) ==> Mirrors(raw, staged)
    {
      var rows := SelectInOrder(raw);
      copied := rows;
      var i := 0;
      while i < |rows|
        invariant 0 <= i <= |rows| && Valid() && raw == old(raw)
        invariant staged == UpsertAll(old(staged), rows[..i])
      {
        UpsertKeepsNumbers(staged, rows[i]);
        staged := Upsert(staged, rows[i]);
        assert DropLast(rows[..i + 1]) == rows[..i];
        i := i + 1;
      }
      assert rows[..i] == rows;
      if Aligned(old(raw), old(staged)) {
        StagingMirrors(raw, old(staged), rows);
      }
      count := |staged.rows|;
    }
  }
}

/** Histories of one client as chains of validity windows, and the as-of lookup over them
(sql/03_cdc_apply.sql). */
module Histories {
  import opened Model
  import opened FiniteSets

  /** The lsns after l. */
  function After(h: History, l: int): set<int> {
    set m | m in h && l < m
  }

  /** The rows an as-of lookup at t may return. */
  function Covering(h: History, t: int): set<int> {
    set l | l in h && Covers(h[l], t)
  }

  /** The rows that have started by t. */
  function Started(h: History, t: int): set<int> {
    set l | l in h && h[l].validFrom <= t
  }

  /** Where the window of row l ends when every window runs up to its successor's start. */
  function NextStart(h: History, l: int): int {
    var later := After(h, l);
    if later == {} then END_OF_TIME else h[Min(later)].validFrom
  }

  /** Row l runs up to its successor's start and is current when it has none. */
  ghost predicate Linked(h: History, l: int)
    requires l in h
  {
    && (h[l].isCurrent <==> After(h, l) == {})
    && h[l].validTo == NextStart(h, l)
  }

  /** The windows run on from one another in lsn order and only the last row is current. */
  ghost predicate Chained(h: History) {
    && (forall l {:trigger Linked(h, l)} | l in h :: Linked(h, l))
    && (forall l, m {:trigger h[l], h[m]} | l in h && m in h && l <= m :: h[l].validFrom <= h[m].validFrom)
    && (forall l | l in h :: BEGINNING_OF_TIME <= h[l].validFrom < END_OF_TIME)
  }

  /** A window ends no later than any later version starts. */
  lemma WindowsOrdered(h: History, l: int, m: int)
    requires Chained(h) && l in h && m in h && l < m
    ensures h[l].validTo <= h[m].validFrom
  {
    assert m in After(h, l);
    assert Linked(h, l);
  }

  /** The lookup has no ORDER BY, yet it has one answer: the last version to have started,
      or none at all before the first version. */
  lemma LookupIsAsOf(h: History, t: int)
    requires Chained(h) && t < END_OF_TIME
    ensures Started(h, t) == {} ==> Covering(h, t) == {}
    ensures Started(h, t) != {} ==> Covering(h, t) == {Max(Started(h, t))}
  {
    var started := Started(h, t);
    forall l | l in Covering(h, t)
      ensures l in started
    {
    }
    if started != {} {
      var m := Max(started);
      assert Covers(h[m], t) by {
        assert Linked(h, m);
        if After(h, m) != {} {
          assert Min(After(h, m)) !in started;
        }
      }
      forall l | l in Covering(h, t)
        ensures l == m
      {
        if l < m {
          WindowsOrdered(h, l, m);
        }
      }
    }
  }

  /** The windows partition time from the first version on. */
  lemma WindowsPartition(h: History, t: int)
    requires Chained(h) && h != map[]
    requires h[Min(h.Keys)].validFrom <= t < END_OF_TIME
    ensures exists l :: Covering(h, t) == {l}
  {
    assert Min(h.Keys) in Started(h, t);
    LookupIsAsOf(h, t);
  }

  /** g is h with its last window closed by a new, open last row n. */
  ghost predicate Extends(h: History, g: History, n: int) {
    && g.Keys == h.Keys + {n}
    && (forall l | l in h :: l < n)
    && g[n].isCurrent && g[n].validTo == END_OF_TIME
    && forall l {:trigger g[l]} | l in h :: g[l] ==
         if After(h, l) == {} then h[l].(validTo := g[n].validFrom, isCurrent := false) else h[l]
  }

  lemma ExtendedRow(h: History, g: History, n: int, l: int)
    requires Chained(h) && Extends(h, g, n) && l in g
    ensures Linked(g, l)
  {
    if l == n {
      assert After(g, l) == {};
    } else {
      assert After(g, l) == After(h, l) + {n};
      assert n in After(g, l) && Linked(h, l);
      if After(h, l) != {} {
        assert Min(After(g, l)) == Min(After(h, l));
      } else {
        assert Min(After(g, l)) == n;
      }
    }
  }

  /** Extending a chain at its end keeps it a chain. */
  lemma ExtendedChain(h: History, g: History, n: int)
    requires Chained(h) && Extends(h, g, n)
    requires BEGINNING_OF_TIME <= g[n].validFrom < END_OF_TIME
    requires forall l | l in h :: h[l].validFrom <= g[n].validFrom
    ensures Chained(g)
  {
    forall l | l in g
      ensures Linked(g, l)
    {
      ExtendedRow(h, g, n, l);
    }
    forall l, m | l in g && m in g && l <= m
      ensures g[l].validFrom <= g[m].validFrom
    {
      assert l in h || l == n;
      assert m in h || m == n;
    }
    forall l | l in g
      ensures BEGINNING_OF_TIME <= g[l].validFrom < END_OF_TIME
    {
      assert l in h || l == n;
    }
  }

  /** A chain without its first row is a chain. */
  lemma WithoutFirstRow(h: History, x: int)
    requires Chained(h) && x in h && forall l | l in h :: x <= l
    ensures Chained(h - {x})
  {
    var g := h - {x};
    forall l | l in g
      ensures Linked(g, l)
    {
      assert After(g, l) == After(h, l);
      assert Linked(h, l);
    }
    forall l, m | l in g && m in g && l <= m
      ensures g[l].validFrom <= g[m].validFrom
    {
      assert h[l].validFrom <= h[m].validFrom;
    }
    forall l | l in g
      ensures BEGINNING_OF_TIME <= g[l].validFrom < END_OF_TIME
    {
      assert l in h;
    }
  }

  /** No two windows overlap: no lookup has two answers. */
  ghost predicate Disjoint(h: History) {
    forall l, m, t {:trigger l in Covering(h, t), m in Covering(h, t)} |
      l in Covering(h, t) && m in Covering(h, t) :: l == m
  }

  lemma ChainIsDisjoint(h: History)
    requires Chained(h)
    ensures Disjoint(h)
  {
    forall l, m, t | l in Covering(h, t) && m in Covering(h, t)
      ensures l == m
    {
      if l < m {
        WindowsOrdered(h, l, m);
      } else if m < l {
        WindowsOrdered(h, m, l);
      }
    }
  }

  /** The rows that are not stopgaps: a stopgap has a negative lsn. */
  function RealRows(h: History): History {
    map l | l in h && 0 <= l :: h[l]
  }

  /** The as-of lookup at t cannot return two different rows, and returns one. */
  ghost predicate OneAnswer(h: History, t: int) {
    exists l :: Covering(h, t) == {l}
  }

  ghost predicate OneAnswerAlways(h: History) {
    forall t | BEGINNING_OF_TIME <= t < END_OF_TIME :: OneAnswer(h, t)
  }

  ghost predicate NoStopgap(h: History) {
    forall l | l in h :: 0 <= l
  }

  lemma SeededAlwaysAnswered(h: History)
    requires Chained(h) && 0 in h && h[0].validFrom == BEGINNING_OF_TIME
    ensures OneAnswerAlways(h)
  {
    forall t | BEGINNING_OF_TIME <= t < END_OF_TIME
      ensures OneAnswer(h, t)
    {
      assert 0 in Started(h, t);
      LookupIsAsOf(h, t);
    }
  }

  lemma StopgapIsAmbiguous(h: History, l: int)
    requires Chained(RealRows(h)) && 0 in h && h[0].validFrom == BEGINNING_OF_TIME
    requires l in h && l < 0 && BEGINNING_OF_TIME <= h[l].validFrom < h[l].validTo <= END_OF_TIME
    ensures !OneAnswer(h, h[l].validFrom)
  {
    var chain := RealRows(h);
    var t := h[l].validFrom;
    assert 0 in Started(chain, t);
    LookupIsAsOf(chain, t);
    var m := Max(Started(chain, t));
    assert m in Covering(chain, t);
    assert l in Covering(h, t) && m in Covering(h, t);
  }

  /** For a seeded client the lookup has exactly one answer at every instant if and only if
      the client has no stopgap row left. */
  lemma OneAnswerIffNoStopgap(h: History)
    requires Chained(RealRows(h)) && 0 in h && h[0].validFrom == BEGINNING_OF_TIME
    requires forall l | l in h && l < 0 :: BEGINNING_OF_TIME <= h[l].validFrom < h[l].validTo <= END_OF_TIME
    ensures OneAnswerAlways(h) <==> NoStopgap(h)
  {
    if NoStopgap(h) {
      assert RealRows(h) == h;
      SeededAlwaysAnswered(h);
    } else {
      var l :| l in h && l < 0;
      StopgapIsAmbiguous(h, l);
      assert !OneAnswer(h, h[l].validFrom);
    }
  }
}

/** Concurrent loaders allocating stopgap rows for one client under its advisory lock
(_resolve_risk_snapshot_key in layer3_warehouse.py), as a state machine: each statement is one
step, a statement sees what is committed and its own transaction's rows, and the lock is held
from acquisition to the end of the transaction.
*/
module StopgapRace {
  import opened Model
  import opened FiniteSets
  import opened Histories
  import opened FactLoad

  type Loader = nat

  /** Where a loader stands in its current lookup at t. */
  datatype Pc =
    | Idle
    | Missed(t: int)
    | Locked(t: int)
    | Checked(t: int)
    | Chosen(t: int, lsn: int)
    | Inserted(t: int)
    | Raised

  /** A loader: the instants its facts are looked up at, and the rows its open transaction has
      inserted. */
  datatype Proc = Proc(work: set<int>, pc: Pc, own: History)

  datatype System = System(committed: History, lock: Option<Loader>, procs: map<Loader, Proc>, nextKey: int)

  function Visible(s: System, p: Loader): History
    requires p in s.procs
  {
    s.committed + s.procs[p].own
  }

  function Goto(s: System, p: Loader, pc: Pc): System
    requires p in s.procs
  {
    s.(procs := s.procs[p := s.procs[p].(pc := pc)])
  }

  /** A row with this lsn exists, committed or in some open transaction: the unique constraint
      counts both. */
  predicate Taken(s: System, lsn: int) {
    lsn in s.committed || exists p | p in s.procs :: lsn in s.procs[p].own
  }

  /** Loader p between transactions. */
  function Ended(s: System, p: Loader): map<Loader, Proc>
    requires p in s.procs
  {
    s.procs[p := s.procs[p].(pc := Idle, own := map[])]
  }

  function Release(s: System, p: Loader): Option<Loader> {
    if s.lock == Some(p) then None else s.lock
  }

  /** One statement of loader p. */
  ghost predicate Step(s: System, p: Loader, s': System)
    requires p in s.procs
  {
    match s.procs[p].pc
    case Idle =>
      (exists t :: t in s.procs[p].work && s' == if Covering(Visible(s, p), t) == {} then Goto(s, p, Missed(t)) else s)
      || s' == s.(committed := Visible(s, p), lock := Release(s, p), procs := Ended(s, p))
    case Missed(t) =>
      (s.lock == None || s.lock == Some(p)) && s' == Goto(s, p, Locked(t)).(lock := Some(p))
    case Locked(t) =>
      s' == Goto(s, p, if HasHistory(Visible(s, p)) then Raised else Checked(t))
    case Checked(t) =>
      s' == Goto(s, p, Chosen(t, StopgapLsn(Visible(s, p))))
    case Chosen(t, lsn) =>
      s' == if Taken(s, lsn) then Goto(s, p, Inserted(t)).(nextKey := s.nextKey + 1)
            else s.(procs := s.procs[p := Proc(s.procs[p].work, Inserted(t), s.procs[p].own[lsn := Stopgap(s.nextKey, t)])],
                    nextKey := s.nextKey + 1)
    case Inserted(t) =>
      s' == Goto(s, p, if Covering(Visible(s, p), t) == {} then Raised else Idle)
    case Raised =>
      s' == s.(lock := Release(s, p), procs := Ended(s, p))
  }

  ghost predicate Next(s: System, s': System) {
    exists p :: p in s.procs && Step(s, p, s')
  }

  /** Any number of loaders, nothing pending, and the client's committed rows. */
  ghost predicate Init(s: System) {
    s.lock == None && forall p | p in s.procs :: s.procs[p].pc == Idle && s.procs[p].own == map[]
  }

  ghost predicate IsRun(run: seq<System>) {
    run != [] && Init(run[0]) && forall i | 0 <= i < |run| - 1 :: Next(run[i], run[i + 1])
  }

  /** A row that answers one instant only. */
  ghost predicate Narrow(v: Version) {
    v.validTo == v.validFrom + 1
  }

  /** The instant a loader has missed and not yet inserted a row for. */
  function LookingFor(pc: Pc): Option<int> {
    match pc
    case Missed(t) => Some(t)
    case Locked(t) => Some(t)
    case Checked(t) => Some(t)
    case Chosen(t, _) => Some(t)
    case _ => None
  }

  /** What a loader's place says about the lock and its rows. */
  ghost predicate ProcOk(s: System, p: Loader)
    requires p in s.procs
  {
    var pr, v := s.procs[p], Visible(s, p);
    && (pr.own != map[] || !(pr.pc.Idle? || pr.pc.Missed?) ==> s.lock == Some(p))
    && s.committed.Keys !! pr.own.Keys
    && (forall l | l in pr.own :: l < 0 && Narrow(pr.own[l]) && pr.own[l].validFrom in pr.work)
    && (LookingFor(pr.pc).Some? ==> LookingFor(pr.pc).value in pr.work)
    && (pr.own != map[] ==> !HasHistory(s.committed))
    && (pr.pc.Raised? ==> pr.own == map[])
    && (pr.pc.Checked? ==> !HasHistory(v))
    && (pr.pc.Chosen? ==> !HasHistory(v) && pr.pc.lsn == StopgapLsn(v))
    && (pr.pc.Inserted? ==> Covering(v, pr.pc.t) != {})
  }

  ghost predicate Inv(s: System) {
    forall p {:trigger ProcOk(s, p)} | p in s.procs :: ProcOk(s, p)
  }

  lemma InitInv(s: System)
    requires Init(s)
    ensures Inv(s)
  {
  }

  /** The lock holder's lsn is free: no other transaction has rows of this client. */
  lemma ChosenIsFree(s: System, p: Loader)
    requires Inv(s) && p in s.procs && s.procs[p].pc.Chosen?
    ensures !Taken(s, s.procs[p].pc.lsn) && s.procs[p].pc.lsn < 0
    ensures forall l | l in Visible(s, p) :: s.procs[p].pc.lsn < l
  {
    assert ProcOk(s, p);
    StopgapLsnIsFree(Visible(s, p));
    forall q | q in s.procs
      ensures s.procs[p].pc.lsn !in s.procs[q].own
    {
      assert ProcOk(s, q);
    }
  }

  /** A loader that holds neither the lock nor rows is not disturbed by one that acts. */
  lemma BystanderStaysOk(s: System, p: Loader, s': System, q: Loader)
    requires Inv(s) && p in s.procs && Step(s, p, s') && q in s.procs && q != p
    ensures q in s'.procs && ProcOk(s', q)
  {
    assert ProcOk(s, p) && ProcOk(s, q);
    assert s'.procs[q] == s.procs[q];
    if s.procs[p].own == map[] {
      assert Visible(s, p) == s.committed;
    }
  }

  lemma ActorStaysOk(s: System, p: Loader, s': System)
    requires Inv(s) && p in s.procs && Step(s, p, s')
    ensures p in s'.procs && ProcOk(s', p)
  {
    assert ProcOk(s, p);
    if s.procs[p].pc.Chosen? {
      InsertLands(s, p, s');
    } else if s.procs[p].pc.Locked? && HasHistory(Visible(s, p)) {
      var l :| l in Visible(s, p) && 0 <= l;
      assert l in s.committed.Keys;
    }
  }

  /** No insert is swallowed by the unique constraint, and the row it makes is the one the
      second lookup finds. */
  lemma InsertLands(s: System, p: Loader, s': System)
    requires Inv(s) && p in s.procs && s.procs[p].pc.Chosen? && Step(s, p, s')
    ensures var pr := s.procs[p];
      && pr.pc.lsn !in Visible(s, p) && pr.pc.lsn < 0
      && Visible(s', p) == Visible(s, p)[pr.pc.lsn := Stopgap(s.nextKey, pr.pc.t)]
      && Covering(Visible(s', p), pr.pc.t) != {}
      && ProcOk(s', p)
  {
    var pr := s.procs[p];
    assert ProcOk(s, p);
    ChosenIsFree(s, p);
    assert s'.procs[p] == Proc(pr.work, Inserted(pr.pc.t), pr.own[pr.pc.lsn := Stopgap(s.nextKey, pr.pc.t)]);
    assert pr.pc.lsn in Covering(Visible(s', p), pr.pc.t);
    assert !HasHistory(s.committed) by {
      if l :| l in s.committed && 0 <= l {
        assert l in Visible(s, p);
      }
    }
  }

  lemma StepKeepsInv(s: System, p: Loader, s': System)
    requires Inv(s) && p in s.procs && Step(s, p, s')
    ensures Inv(s')
  {
    forall q | q in s'.procs
      ensures ProcOk(s', q)
    {
      if q == p {
        ActorStaysOk(s, p, s');
      } else {
        BystanderStaysOk(s, p, s', q);
      }
    }
  }

  /** Every state of every run. */
  lemma {:induction false} RunKeepsInv(run: seq<System>, i: nat)
    requires IsRun(run) && i < |run|
    ensures Inv(run[i])
  {
    if i == 0 {
      InitInv(run[0]);
    } else {
      RunKeepsInv(run, i - 1);
      assert Next(run[i - 1], run[i - 1 + 1]);
      var p :| p in run[i - 1].procs && Step(run[i - 1], p, run[i]);
      StepKeepsInv(run[i - 1], p, run[i]);
    }
  }

  /** In no run is an insert swallowed or a second lookup left empty: a loader raises only for
      a client that has history. */
  lemma RunNeverFailsSpuriously(run: seq<System>, i: nat, p: Loader)
    requires IsRun(run) && i < |run| - 1 && p in run[i].procs && Step(run[i], p, run[i + 1])
    ensures run[i].procs[p].pc.Chosen? ==>
      run[i].procs[p].pc.lsn < 0 && !Taken(run[i], run[i].procs[p].pc.lsn)
      && run[i].procs[p].pc.lsn in run[i + 1].procs[p].own
    ensures run[i].procs[p].pc.Inserted? ==> run[i + 1].procs[p].pc == Idle
    ensures run[i + 1].procs[p].pc == Raised ==> run[i].procs[p].pc.Locked? && HasHistory(run[i].committed)
  {
    RunKeepsInv(run, i);
    RunKeepsInv(run, i + 1);
    assert ProcOk(run[i], p) && ProcOk(run[i + 1], p);
    if run[i].procs[p].pc.Chosen? {
      ChosenIsFree(run[i], p);
      InsertLands(run[i], p, run[i + 1]);
    }
    if run[i + 1].procs[p].pc == Raised {
      assert run[i].procs[p].own == map[];
      assert Visible(run[i], p) == run[i].committed;
    }
  }

  /** Every row of the client, the lock holder's pending ones included; nobody else has any. */
  function Everything(s: System): History {
    if s.lock.Some? && s.lock.value in s.procs then Visible(s, s.lock.value) else s.committed
  }

  lemma WithoutOwn(s: System, p: Loader)
    requires Inv(s) && p in s.procs && s.lock != Some(p)
    ensures s.procs[p].own == map[] && Visible(s, p) == s.committed
    ensures s.procs[p].pc.Idle? || s.procs[p].pc.Missed?
  {
    assert ProcOk(s, p);
  }

  /** Steps other than an insert leave the rows alone. */
  lemma OtherStepsKeepRows(s: System, p: Loader, s': System)
    requires Inv(s) && p in s.procs && Step(s, p, s') && !s.procs[p].pc.Chosen?
    ensures Everything(s') == Everything(s)
  {
    assert ProcOk(s, p);
    if s.lock != Some(p) {
      WithoutOwn(s, p);
    }
    if s.procs[p].own == map[] {
      assert Visible(s, p) == s.committed;
    }
  }

  lemma InsertAddsRow(s: System, p: Loader, s': System)
    requires Inv(s) && p in s.procs && Step(s, p, s') && s.procs[p].pc.Chosen?
    ensures Everything(s) == Visible(s, p)
    ensures Everything(s') == WithStopgap(Everything(s), s.nextKey, s.procs[p].pc.t)
  {
    assert ProcOk(s, p);
    InsertLands(s, p, s');
  }

  /** An insert makes two windows overlap if and only if the instant was covered already. */
  lemma OverlapIffCovered(h: History, key: int, t: int)
    requires Disjoint(h)
    ensures Disjoint(WithStopgap(h, key, t)) <==> Covering(h, t) == {}
  {
    StopgapLsnIsFree(h);
    if Covering(h, t) == {} {
      StopgapKeepsDisjoint(h, key, t);
    } else {
      var g := WithStopgap(h, key, t);
      var l := Pick(Covering(h, t));
      assert l in Covering(g, t) && StopgapLsn(h) in Covering(g, t);
    }
  }

  /** Every row a run adds is a stopgap of a single instant, so windows made for distinct event
      days never overlap. */
  lemma {:induction false} AddedRowsAreNarrow(run: seq<System>, n: nat, l: int)
    requires IsRun(run) && n < |run| && l in Everything(run[n])
    ensures (l in run[0].committed && Everything(run[n])[l] == run[0].committed[l])
      || (l < 0 && Narrow(Everything(run[n])[l]))
  {
    if n == 0 {
      assert Everything(run[0]) == run[0].committed;
    } else {
      var s, s' := run[n - 1], run[n];
      RunKeepsInv(run, n - 1);
      assert Next(run[n - 1], run[n - 1 + 1]);
      var p :| p in s.procs && Step(s, p, s');
      if s.procs[p].pc.Chosen? {
        InsertAddsRow(s, p, s');
        ChosenIsFree(s, p);
        assert ProcOk(s, p);
      } else {
        OtherStepsKeepRows(s, p, s');
      }
      if l in Everything(s) {
        AddedRowsAreNarrow(run, n - 1, l);
        StopgapLsnIsFree(Everything(s));
      }
    }
  }

  /** Rows two loaders would both make: an instant both have facts at and nothing covers yet. */
  ghost predicate SharedGap(s: System) {
    exists p, q, t :: SharesGap(s, p, q, t)
  }

  ghost predicate SharesGap(s: System, p: Loader, q: Loader, t: int) {
    && p in s.procs && q in s.procs && p != q
    && t in s.procs[p].work && t in s.procs[q].work && Covering(s.committed, t) == {}
  }

  /** In a run from start in which no two loaders share a gap, everything inserted so far and
      everything about to be was a gap at the start and is nobody else's. */
  ghost predicate GapsKept(start: System, s: System) {
    && Disjoint(Everything(s))
    && s.procs.Keys == start.procs.Keys
    && (forall l | l in start.committed :: l in s.committed && s.committed[l] == start.committed[l])
    && forall p {:trigger OwnGaps(start, s, p)} | p in s.procs :: OwnGaps(start, s, p)
  }

  ghost predicate OwnGaps(start: System, s: System, p: Loader)
    requires p in s.procs
  {
    && p in start.procs && s.procs[p].work == start.procs[p].work
    && (forall l | l in s.procs[p].own :: Covering(start.committed, s.procs[p].own[l].validFrom) == {})
    && (LookingFor(s.procs[p].pc).Some? ==>
          Covering(start.committed, LookingFor(s.procs[p].pc).value) == {}
          && Covering(Everything(s), LookingFor(s.procs[p].pc).value) == {})
  }

  lemma StartIsVisible(start: System, s: System, p: Loader, t: int)
    requires Inv(s) && p in s.procs && Covering(Visible(s, p), t) == {}
    requires forall l | l in start.committed :: l in s.committed && s.committed[l] == start.committed[l]
    ensures Covering(start.committed, t) == {}
  {
    var v := Visible(s, p);
    assert ProcOk(s, p);
    forall l | l in start.committed
      ensures l in v && v[l] == start.committed[l]
    {
      assert l in s.committed.Keys && l !in s.procs[p].own.Keys;
    }
  }

  /** What a loader misses is missing altogether: the lock holder's pending rows are for other
      instants. */
  lemma MissIsGap(start: System, s: System, p: Loader, t: int)
    requires Inv(s) && GapsKept(start, s) && !SharedGap(start)
    requires p in s.procs && t in s.procs[p].work && Covering(Visible(s, p), t) == {}
    ensures Covering(start.committed, t) == {} && Covering(Everything(s), t) == {}
  {
    StartIsVisible(start, s, p, t);
    assert OwnGaps(start, s, p) && ProcOk(s, p);
    var v := Visible(s, p);
    forall l | l in s.committed
      ensures !Covers(s.committed[l], t)
    {
      assert l in s.committed.Keys && l !in s.procs[p].own.Keys;
      assert v[l] == s.committed[l] && l !in Covering(v, t);
    }
    if s.lock.Some? && s.lock.value in s.procs && s.lock.value != p {
      var q := s.lock.value;
      assert ProcOk(s, q) && OwnGaps(start, s, q) && !SharesGap(start, p, q, t);
      forall l | l in s.procs[q].own
        ensures !Covers(s.procs[q].own[l], t)
      {
        assert Narrow(s.procs[q].own[l]);
      }
    }
  }

  lemma OthersStay(s: System, p: Loader, s': System, q: Loader)
    requires p in s.procs && Step(s, p, s') && q in s.procs && q != p
    ensures q in s'.procs && s'.procs[q] == s.procs[q]
  {
  }

  /** An insert fills the loader's own gap and nobody else's. */
  lemma InsertKeepsGaps(start: System, s: System, p: Loader, s': System)
    requires Inv(s) && GapsKept(start, s) && !SharedGap(start)
    requires p in s.procs && Step(s, p, s') && s.procs[p].pc.Chosen?
    ensures GapsKept(start, s')
  {
    var t, h := s.procs[p].pc.t, Everything(s);
    assert ProcOk(s, p) && OwnGaps(start, s, p);
    InsertLands(s, p, s');
    InsertAddsRow(s, p, s');
    StopgapKeepsDisjoint(h, s.nextKey, t);
    forall q | q in s'.procs
      ensures OwnGaps(start, s', q)
    {
      if q != p {
        OthersStay(s, p, s', q);
        assert OwnGaps(start, s, q) && ProcOk(s, q);
        if LookingFor(s.procs[q].pc).Some? {
          assert !SharesGap(start, p, q, t);
          StopgapAnswers(h, s.nextKey, t, LookingFor(s.procs[q].pc).value);
        }
      }
    }
  }

  lemma StepKeepsGaps(start: System, s: System, p: Loader, s': System)
    requires Inv(s) && GapsKept(start, s) && !SharedGap(start) && p in s.procs && Step(s, p, s')
    ensures GapsKept(start, s')
  {
    if s.procs[p].pc.Chosen? {
      InsertKeepsGaps(start, s, p, s');
    } else {
      assert ProcOk(s, p) && OwnGaps(start, s, p);
      OtherStepsKeepRows(s, p, s');
      forall q | q in s'.procs
        ensures OwnGaps(start, s', q)
      {
        if q != p {
          OthersStay(s, p, s', q);
          assert OwnGaps(start, s, q);
        } else if s.procs[p].pc.Idle? && s'.procs[p].pc.Missed? {
          MissIsGap(start, s, p, s'.procs[p].pc.t);
        }
      }
    }
  }

  lemma {:induction false} RunKeepsGaps(run: seq<System>, n: nat)
    requires IsRun(run) && n < |run| && Disjoint(run[0].committed) && !SharedGap(run[0])
    ensures GapsKept(run[0], run[n])
  {
    RunKeepsInv(run, n);
    if n == 0 {
      assert Everything(run[0]) == run[0].committed;
    } else {
      RunKeepsGaps(run, n - 1);
      RunKeepsInv(run, n - 1);
      assert Next(run[n - 1], run[n - 1 + 1]);
      var p :| p in run[n - 1].procs && Step(run[n - 1], p, run[n]);
      StepKeepsGaps(run[0], run[n - 1], p, run[n]);
    }
  }

  ghost predicate Steps(run: seq<System>) {
    run != [] && forall i | 0 <= i < |run| - 1 :: Next(run[i], run[i + 1])
  }

  lemma Extend(run: seq<System>, p: Loader, s: System) returns (longer: seq<System>)
    requires Steps(run) && p in run[|run| - 1].procs && Step(run[|run| - 1], p, s)
    ensures Steps(longer) && longer[0] == run[0] && longer[|longer| - 1] == s && run <= longer
  {
    longer := run + [s];
    forall i | 0 <= i < |longer| - 1
      ensures Next(longer[i], longer[i + 1])
    {
      if i < |run| - 1 {
        assert Next(run[i], run[i + 1]);
      } else {
        assert Step(longer[i], p, longer[i + 1]);
      }
    }
  }

  /** A loader between two lookups misses t. */
  lemma Misses(run: seq<System>, p: Loader, t: int) returns (longer: seq<System>)
    requires Steps(run) && p in run[|run| - 1].procs
    requires var s := run[|run| - 1];
      s.procs[p].pc == Idle && t in s.procs[p].work && Covering(Visible(s, p), t) == {}
    ensures Steps(longer) && longer[0] == run[0] && longer[|longer| - 1] == Goto(run[|run| - 1], p, Missed(t))
  {
    longer := Extend(run, p, Goto(run[|run| - 1], p, Missed(t)));
  }

  /** A loader with no rows yet after it has inserted its stopgap. */
  function Allocated(s: System, p: Loader, t: int): System
    requires p in s.procs
  {
    var own: History := map[StopgapLsn(s.committed) := Stopgap(s.nextKey, t)];
    s.(procs := s.procs[p := Proc(s.procs[p].work, Inserted(t), own)], lock := Some(p), nextKey := s.nextKey + 1)
  }

  /** A loader whose lookup missed takes the free lock and allocates. */
  lemma TakesLockAndAllocates(run: seq<System>, p: Loader, t: int) returns (longer: seq<System>)
    requires Steps(run) && p in run[|run| - 1].procs
    requires var s := run[|run| - 1];
      s.procs[p].pc == Missed(t) && s.lock == None && !HasHistory(s.committed)
      && forall q | q in s.procs :: s.procs[q].own == map[]
    ensures Steps(longer) && longer[0] == run[0] && run <= longer
    ensures longer[|longer| - 1] == Allocated(run[|run| - 1], p, t)
  {
    var s := run[|run| - 1];
    var v := s.committed;
    assert v + map[] == v;
    StopgapLsnIsFree(v);
    var locked := Goto(s, p, Locked(t)).(lock := Some(p));
    longer := Extend(run, p, locked);
    var checked := Goto(locked, p, Checked(t));
    assert Visible(locked, p) == v;
    longer := Extend(longer, p, checked);
    var chosen := Goto(checked, p, Chosen(t, StopgapLsn(v)));
    assert Visible(checked, p) == v;
    longer := Extend(longer, p, chosen);
    assert !Taken(chosen, StopgapLsn(v));
    assert chosen.procs[p].own[StopgapLsn(v) := Stopgap(s.nextKey, t)] == map[StopgapLsn(v) := Stopgap(s.nextKey, t)];
    longer := Extend(longer, p, Allocated(s, p, t));
  }

  /** What its commit leaves. */
  function Committed(s: System, p: Loader, t: int): System
    requires p in s.procs
  {
    System(WithStopgap(s.committed, s.nextKey, t), None, Ended(s, p), s.nextKey + 1)
  }

  /** A loader that has allocated: its second lookup finds the row, and it commits.  Meanwhile other
      loaders may have moved to their places in procs. */
  lemma FindsAndCommits(run: seq<System>, p: Loader, t: int, s: System) returns (longer: seq<System>)
    requires Steps(run) && p in s.procs && run[|run| - 1] == Allocated(s, p, t)
    ensures Steps(longer) && longer[0] == run[0] && run <= longer && longer[|longer| - 1] == Committed(s, p, t)
  {
    var done := Allocated(s, p, t);
    StopgapLsnIsFree(s.committed);
    assert StopgapLsn(s.committed) in Covering(Visible(done, p), t);
    var found := Goto(done, p, Idle);
    longer := Extend(run, p, found);
    assert Visible(found, p) == WithStopgap(s.committed, s.nextKey, t);
    assert Ended(found, p) == Ended(s, p);
    longer := Extend(longer, p, Committed(s, p, t));
  }

  /** Two loaders share a gap: both miss, then one after the other takes the lock, and the second
      inserts a second row for the same instant. */
  lemma SharedGapOverlaps(start: System, p: Loader, q: Loader, t: int) returns (run: seq<System>)
    requires Init(start) && !HasHistory(start.committed) && SharesGap(start, p, q, t)
    ensures IsRun(run) && run[0] == start && !Disjoint(Everything(run[|run| - 1]))
  {
    run := [start];
    assert start.committed + map[] == start.committed;
    run := Misses(run, p, t);
    run := Misses(run, q, t);
    var both := run[|run| - 1];
    run := TakesLockAndAllocates(run, p, t);
    run := FindsAndCommits(run, p, t, both);
    var mid := run[|run| - 1];
    StopgapLsnIsFree(start.committed);
    run := TakesLockAndAllocates(run, q, t);
    SecondRowOverlaps(start.committed, mid, run[|run| - 1], q, both.nextKey, t);
  }

  lemma SecondRowOverlaps(h: History, mid: System, end: System, q: Loader, key: int, t: int)
    requires q in mid.procs && mid.committed == WithStopgap(h, key, t) && end == Allocated(mid, q, t)
    ensures !Disjoint(Everything(end))
  {
    var l, m := StopgapLsn(h), StopgapLsn(mid.committed);
    StopgapLsnIsFree(h);
    StopgapLsnIsFree(mid.committed);
    assert l in mid.committed && m < l;
    assert l in Covering(Everything(end), t) && m in Covering(Everything(end), t);
  }

  /** Whatever the interleaving, a client without history keeps its windows apart if and only if no
      two loaders have facts at the same instant that nothing covers at the start: the lookup is
      not repeated under the lock. */
  lemma AlwaysDisjointIff(start: System)
    requires Init(start) && Disjoint(start.committed) && !HasHistory(start.committed)
    ensures (forall run: seq<System>, n: nat | IsRun(run) && run[0] == start && n < |run| :: Disjoint(Everything(run[n])))
      <==> !SharedGap(start)
  {
    if SharedGap(start) {
      var p, q, t :| SharesGap(start, p, q, t);
      var run := SharedGapOverlaps(start, p, q, t);
      assert !Disjoint(Everything(run[|run| - 1]));
    } else {
      forall run: seq<System>, n: nat | IsRun(run) && run[0] == start && n < |run|
        ensures Disjoint(Everything(run[n]))
      {
        RunKeepsGaps(run, n);
      }
    }
  }

  /** The start of SameDayTwice. */
  function TwoLoaders(t: int): System {
    System(map[], None, map[0 := Proc({t}, Idle, map[]), 1 := Proc({t}, Idle, map[])], 0)
  }

  /** Two loaders with facts of one day. */
  lemma SameDayTwice(t: int) returns (run: seq<System>)
    ensures IsRun(run) && run[0] == TwoLoaders(t)
    ensures !Disjoint(Everything(run[|run| - 1]))
  {
    assert Covering(map[], t) == {};
    assert SharesGap(TwoLoaders(t), 0, 1, t);
    run := SharedGapOverlaps(TwoLoaders(t), 0, 1, t);
  }

  /** Loader p has been looking for t from state m + 1 to state n, with the same rows of its own. */
  ghost predicate LooksSince(run: seq<System>, m: nat, n: nat, p: Loader, t: int) {
    && m < n < |run| && p in run[m].procs && p in run[n].procs && run[m].procs[p].pc == Idle
    && Covering(Visible(run[m], p), t) == {}
    && forall j {:trigger LooksAt(run, j, n, p, t)} | m < j <= n :: LooksAt(run, j, n, p, t)
  }

  ghost predicate LooksAt(run: seq<System>, j: nat, n: nat, p: Loader, t: int)
    requires n < |run| && p in run[n].procs
  {
    && j < |run| && p in run[j].procs && LookingFor(run[j].procs[p].pc) == Some(t)
    && run[j].procs[p].own == run[n].procs[p].own
  }

  /** A step during a lookup. */
  lemma LookupStep(run: seq<System>, i: nat, p: Loader, t: int)
    requires IsRun(run) && i < |run| - 1 && p in run[i + 1].procs && LookingFor(run[i + 1].procs[p].pc) == Some(t)
    ensures p in run[i].procs && run[i].procs[p].own == run[i + 1].procs[p].own
    ensures LookingFor(run[i].procs[p].pc) == Some(t)
      || (run[i].procs[p].pc == Idle && Covering(Visible(run[i], p), t) == {})
  {
    assert Next(run[i], run[i + 1]);
    var r :| r in run[i].procs && Step(run[i], r, run[i + 1]);
    if r != p {
      assert p in run[i].procs;
      OthersStay(run[i], r, run[i + 1], p);
    }
  }

  lemma {:induction false} LookupBegan(run: seq<System>, n: nat, p: Loader, t: int) returns (m: nat)
    requires IsRun(run) && n < |run| && p in run[n].procs && LookingFor(run[n].procs[p].pc) == Some(t)
    ensures LooksSince(run, m, n, p, t)
  {
    assert n > 0;
    LookupStep(run, n - 1, p, t);
    assert run[n - 1 + 1] == run[n];
    if LookingFor(run[n - 1].procs[p].pc) == Some(t) {
      m := LookupBegan(run, n - 1, p, t);
      forall j | m < j <= n
        ensures LooksAt(run, j, n, p, t)
      {
        assert j < n ==> LooksAt(run, j, n - 1, p, t);
      }
    } else {
      m := n - 1;
      assert LooksAt(run, n, n, p, t);
    }
  }

  /** Loader q commits, at step i, a row it made for instant t. */
  ghost predicate CommitsAt(run: seq<System>, i: nat, q: Loader, t: int) {
    && i + 1 < |run| && q in run[i].procs
    && exists l :: l in run[i].procs[q].own && run[i].procs[q].own[l].validFrom == t
                   && l !in run[i].committed && l in run[i + 1].committed
  }

  /** A step after which a looking loader sees t covered is another's commit of a row for t, and the
      looking loader does not have the lock yet. */
  lemma CoverAppears(run: seq<System>, i: nat, p: Loader, t: int) returns (q: Loader)
    requires IsRun(run) && i < |run| - 1 && p in run[i].procs && p in run[i + 1].procs
    requires LookingFor(run[i].procs[p].pc) == Some(t) && run[i].procs[p].own == run[i + 1].procs[p].own
    requires LookingFor(run[i + 1].procs[p].pc) == Some(t)
    requires Covering(Visible(run[i], p), t) == {} && Covering(Visible(run[i + 1], p), t) != {}
    ensures q != p && CommitsAt(run, i, q, t) && run[i].procs[p].pc == Missed(t)
  {
    assert Next(run[i], run[i + 1]);
    q :| q in run[i].procs && Step(run[i], q, run[i + 1]);
    RunKeepsInv(run, i);
    var l := CoverIsCommit(run[i], run[i + 1], p, q, t);
  }

  lemma CoverIsCommit(s: System, s': System, p: Loader, q: Loader, t: int) returns (l: int)
    requires Inv(s) && q in s.procs && Step(s, q, s') && p in s.procs && p in s'.procs
    requires LookingFor(s.procs[p].pc) == Some(t) && LookingFor(s'.procs[p].pc) == Some(t)
    requires s.procs[p].own == s'.procs[p].own
    requires Covering(Visible(s, p), t) == {} && Covering(Visible(s', p), t) != {}
    ensures q != p && s.procs[p].pc == Missed(t)
    ensures l in s.procs[q].own && s.procs[q].own[l].validFrom == t && l !in s.committed && l in s'.committed
  {
    assert ProcOk(s, p) && ProcOk(s, q);
    var before, after := Visible(s, p), Visible(s', p);
    l := Pick(Covering(after, t));
    assert l !in Covering(before, t);
    assert s'.committed == Visible(s, q) && l in s.procs[q].own;
    assert Narrow(s.procs[q].own[l]);
  }

  /** Where t first shows as covered to loader p. */
  lemma {:induction false} FirstCovered(run: seq<System>, lo: nat, k: nat, p: Loader, t: int) returns (i: nat)
    requires lo <= k < |run| && forall j | lo <= j <= k :: p in run[j].procs
    requires Covering(Visible(run[lo], p), t) == {} && Covering(Visible(run[k], p), t) != {}
    ensures lo <= i < k && Covering(Visible(run[i], p), t) == {} && Covering(Visible(run[i + 1], p), t) != {}
  {
    i := k - 1;
    if Covering(Visible(run[k - 1], p), t) != {} {
      i := FirstCovered(run, lo, k - 1, p, t);
    }
  }

  /** The missing lookup itself changes nothing. */
  lemma MissSeesTheSame(run: seq<System>, m: nat, p: Loader, t: int)
    requires IsRun(run) && m < |run| - 1 && p in run[m].procs && p in run[m + 1].procs
    requires run[m].procs[p].pc == Idle && LookingFor(run[m + 1].procs[p].pc) == Some(t)
    ensures Visible(run[m + 1], p) == Visible(run[m], p)
  {
    assert Next(run[m], run[m + 1]);
    var r :| r in run[m].procs && Step(run[m], r, run[m + 1]);
    if r != p {
      OthersStay(run[m], r, run[m + 1], p);
    }
  }

  /** If a loader is about to insert for an instant that is covered by now, another loader committed
      a row for that instant after this one's miss and before it had the lock. */
  lemma StaleInsertMeansLateCommit(run: seq<System>, n: nat, p: Loader) returns (m: nat, i: nat, q: Loader)
    requires IsRun(run) && n < |run| && p in run[n].procs && run[n].procs[p].pc.Chosen?
    requires Covering(Visible(run[n], p), run[n].procs[p].pc.t) != {}
    ensures var t := run[n].procs[p].pc.t;
      && LooksSince(run, m, n, p, t) && m < i < n
      && p in run[i].procs && run[i].procs[p].pc == Missed(t) && q != p && CommitsAt(run, i, q, t)
  {
    var t := run[n].procs[p].pc.t;
    m := LookupBegan(run, n, p, t);
    forall j | m < j <= n
      ensures p in run[j].procs && LookingFor(run[j].procs[p].pc) == Some(t)
      ensures run[j].procs[p].own == run[n].procs[p].own
    {
      assert LooksAt(run, j, n, p, t);
    }
    MissSeesTheSame(run, m, p, t);
    i := FirstCovered(run, m + 1, n, p, t);
    q := CoverAppears(run, i, p, t);
  }

  /** The row may have been inserted before the miss, as long as it was not committed. */
  lemma InsertedBeforeTheMiss(t: int) returns (run: seq<System>, j: nat)
    ensures IsRun(run) && run[0] == TwoLoaders(t) && !Disjoint(Everything(run[|run| - 1]))
    ensures j < |run| && run[j].procs.Keys == {0, 1} && run[j].procs[0].pc == Inserted(t) && run[j].procs[1].pc == Idle
  {
    var start := TwoLoaders(t);
    assert Covering(map[], t) == {};
    run := [start];
    run := Misses(run, 0, t);
    var missed := run[|run| - 1];
    run := TakesLockAndAllocates(run, 0, t);
    j := |run| - 1;
    var early := run;
    var both := Goto(missed, 1, Missed(t));
    assert Goto(run[j], 1, Missed(t)).procs == Allocated(both, 0, t).procs;
    assert Visible(run[j], 1) == map[];
    var longer := Extend(run, 1, Allocated(both, 0, t));
    var more := FindsAndCommits(longer, 0, t, both);
    var mid := more[|more| - 1];
    StopgapLsnIsFree(map[]);
    var last := TakesLockAndAllocates(more, 1, t);
    SecondRowOverlaps(map[], mid, last[|last| - 1], 1, both.nextKey, t);
    assert run[j].procs.Keys == {0, 1};
    assert last[j] == longer[j] == run[j];
    run := last;
  }
}

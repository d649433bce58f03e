/** From the landing tables to the streaming run: the staged rows scd2_apply reads are events of
the raw log, in order of first landing (layer2_staging.py, layer3_warehouse.py).
*/
module LandingLogs {
  import opened Model
  import opened ClientCdc
  import opened Database
  import opened StreamRuns
  import opened Landing

  /** The raw table as the change log of each client. */
  function AsLogs(t: Table): Logs {
    map c | c in (set k | k in t.rows :: k.client) :: LsnsOf(t, c)
  }

  function LsnsOf(t: Table, c: Client): Log {
    map l | l in (set k | k in t.rows && k.client == c :: k.lsn) :: t.rows[EventKey(c, l)].event
  }

  /** Key by key the logs are the raw table. */
  lemma LogHasRow(t: Table, c: Client, l: int)
    ensures l in LogOf(AsLogs(t), c) <==> EventKey(c, l) in t.rows
    ensures l in LogOf(AsLogs(t), c) ==> LogOf(AsLogs(t), c)[l] == t.rows[EventKey(c, l)].event
  {
    if EventKey(c, l) in t.rows {
      assert EventKey(c, l).client == c && EventKey(c, l).lsn == l;
      assert c in AsLogs(t) && l in LsnsOf(t, c);
    }
  }

  /** Staging holds some of raw's keys, in raw's order and with raw's commit times; the values may
      be older ones. */
  ghost predicate Trails(raw: Table, staged: Table) {
    && Aligned(raw, staged)
    && forall k | k in staged.rows :: staged.rows[k].event.commitTs == raw.rows[k].event.commitTs
  }

  lemma EventIsLogged(raw: Table, staged: Table, e: Event)
    requires Trails(raw, staged) && KeyOf(e) in staged.rows && staged.rows[KeyOf(e)].event == e
    ensures Logged(LogOf(AsLogs(raw), e.client), e)
  {
    LogHasRow(raw, e.client, e.lsn);
  }

  /** The selection of a streaming run over the staged rows, in staging order, consists of logged
      events. */
  lemma StagedIsLogged(db: Db, raw: Table, staged: Table, es: seq<Event>)
    requires Trails(raw, staged) && ListsInOrder(staged, es)
    ensures AllInLogs(AsLogs(raw), Selected(db, es))
  {
    var rows := Selected(db, es);
    forall k | 0 <= k < |rows|
      ensures Logged(LogOf(AsLogs(raw), rows[k].client), rows[k])
    {
      SelectedMembers(db, es, rows[k]);
      var i :| 0 <= i < |es| && es[i] == rows[k];
      EventIsLogged(raw, staged, es[i]);
    }
  }

  /** Later deliveries add events and may correct values, never a commit time. */
  ghost predicate LogsGrow(raw: Logs, more: Logs) {
    && LogsOk(more)
    && forall c, l {:trigger l in LogOf(more, c)} | l in LogOf(raw, c) ::
         l in LogOf(more, c) && LogOf(more, c)[l].commitTs == LogOf(raw, c)[l].commitTs
  }

  /** Landing leaves staging behind, but on the same commit times. */
  lemma LandingKeepsTrails(raw: Table, staged: Table, landed: seq<Event>)
    requires Trails(raw, staged) && LogsGrow(AsLogs(raw), AsLogs(UpsertAll(raw, landed)))
    ensures Trails(UpsertAll(raw, landed), staged)
  {
    var after := UpsertAll(raw, landed);
    LandingKeepsAligned(raw, staged, landed);
    forall k | k in staged.rows
      ensures staged.rows[k].event.commitTs == after.rows[k].event.commitTs
    {
      LogHasRow(raw, k.client, k.lsn);
      LogHasRow(after, k.client, k.lsn);
      assert EventKey(k.client, k.lsn) == k;
    }
  }

  /** A staging pass catches up. */
  lemma StagingKeepsTrails(raw: Table, staged: Table, copied: seq<Event>)
    requires Trails(raw, staged) && ListsInOrder(raw, copied)
    ensures Trails(raw, UpsertAll(staged, copied))
  {
    StagingMirrors(raw, staged, copied);
  }
}

/** The warehouse tables as one value, and what streaming does to them
(scd2_apply in layer3_warehouse.py). */
module Database {
  import opened Model
  import opened ClientCdc
  import opened Lists
  import opened ClientReload

  datatype Db = Db(
    snapshots: map<Client, History>,
    watermark: map<Client, int>,
    quarantine: seq<Rejection>,
    facts: map<FactId, Fact>,
    nextKey: int)

  function HistoryOf(db: Db, c: Client): History {
    if c in db.snapshots then db.snapshots[c] else map[]
  }

  function WatermarkOf(db: Db, c: Client): Option<int> {
    if c in db.watermark then Some(db.watermark[c]) else None
  }

  function Project(db: Db, c: Client): ClientState {
    ClientState(HistoryOf(db, c), WatermarkOf(db, c), db.nextKey)
  }

  /** db with client c in state s; a watermark row is never removed. */
  function Inject(db: Db, c: Client, s: ClientState): Db {
    db.(
      snapshots := if s.history == HistoryOf(db, c) then db.snapshots else db.snapshots[c := s.history],
      watermark := if s.watermark.Some? then db.watermark[c := s.watermark.value] else db.watermark,
      nextKey := s.nextKey)
  }

  function Reject(db: Db, reason: Reason, e: Event): Db {
    db.(quarantine := db.quarantine + [Rejection(reason, e.client, e.lsn, e.change)])
  }

  /** apply_cdc_event. */
  function ApplyEvent(db: Db, e: Event): Db {
    var s := Project(db, e.client);
    var db' := Inject(db, e.client, Apply(s, e));
    if e.lsn <= Floor(s.watermark) then Reject(db', StaleLsn, e) else db'
  }

  /** The statements of apply_cdc_event past the watermark gate, taken together. */
  lemma GatePassed(db: Db, after: Db, e: Event)
    requires Floor(WatermarkOf(db, e.client)) < e.lsn
    requires after == db.(
      snapshots := after.snapshots, nextKey := after.nextKey, watermark := db.watermark[e.client := e.lsn])
    requires var closed := EndDate(HistoryOf(db, e.client), e.commitTs);
      match AppendedAttributes(closed, e.change)
      case None =>
        after.nextKey == db.nextKey
        && after.snapshots == if e.client in db.snapshots then db.snapshots[e.client := closed] else db.snapshots
      case Some(attrs) =>
        after.nextKey == db.nextKey + 1
        && after.snapshots == db.snapshots[e.client := Append(closed, e.lsn, Opened(db.nextKey, attrs, e))]
    ensures after == ApplyEvent(db, e)
  {
  }

  /** One round of the replay loops: the delete guard, then apply_cdc_event. */
  function HandleEvent(db: Db, e: Event): Db {
    if e.change.Delete? && HistoryOf(db, e.client) == map[] then Reject(db, DeleteWithNoBaseline, e)
    else ApplyEvent(db, e)
  }

  function Handle(db: Db, es: seq<Event>): Db {
    if es == [] then db else HandleEvent(Handle(db, DropLast(es)), Last(es))
  }

  /** Whether the anti-join against the watermark table lets a staged event through. */
  predicate Pending(db: Db, e: Event) {
    e.client in db.watermark ==> db.watermark[e.client] < e.lsn
  }

  function Selected(db: Db, staged: seq<Event>): seq<Event> {
    if staged == [] then []
    else if Pending(db, Last(staged)) then Selected(db, DropLast(staged)) + [Last(staged)]
    else Selected(db, DropLast(staged))
  }

  /** scd2_apply over the staging table in staging order. */
  function StreamRun(db: Db, staged: seq<Event>): Db {
    Handle(db, Selected(db, staged))
  }

  function OfClient(es: seq<Event>, c: Client): seq<Event> {
    if es == [] then []
    else if Last(es).client == c then OfClient(DropLast(es), c) + [Last(es)]
    else OfClient(DropLast(es), c)
  }

  lemma HandleIsStep(db: Db, e: Event)
    ensures var after, s := HandleEvent(db, e), Step(Project(db, e.client), e);
      && Project(after, e.client) == s
      && after.facts == db.facts
      && after.quarantine == db.quarantine + match Judge(Project(db, e.client), e)
           case Applied => []
           case Rejected(reason) => [Rejection(reason, e.client, e.lsn, e.change)]
  {
  }

  lemma HandleKeepsOthers(db: Db, e: Event, c: Client)
    requires c != e.client
    ensures HistoryOf(HandleEvent(db, e), c) == HistoryOf(db, c)
    ensures WatermarkOf(HandleEvent(db, e), c) == WatermarkOf(db, c)
  {
  }

  /** Every client sees its own events only: interleaving with others costs it nothing but
      different surrogate keys. */
  lemma {:induction false} ClientSeesItsOwn(db: Db, es: seq<Event>, c: Client)
    ensures Similar(Project(Handle(db, es), c), Run(Project(db, c), OfClient(es, c)))
  {
    if es != [] {
      var mid := Handle(db, DropLast(es));
      ClientSeesItsOwn(db, DropLast(es), c);
      if Last(es).client == c {
        HandleIsStep(mid, Last(es));
        StepIgnoresKeys(Project(mid, c), Run(Project(db, c), OfClient(DropLast(es), c)), Last(es));
        assert DropLast(OfClient(es, c)) == OfClient(DropLast(es), c);
      } else {
        HandleKeepsOthers(mid, Last(es), c);
      }
    }
  }
}

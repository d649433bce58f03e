/** The entities of the client risk-history engine.

Times are integer microseconds since 1970-01-01 00:00 UTC, balances are integer
hundredths of a dollar.  The version table carries two unique keys, the surrogate key
and the pair (client, lsn); it is indexed here by the second, and the surrogate key is
a field of the version.
*/
module Model {

  datatype Option<+T> = None | Some(value: T)

  /** '1970-01-01', where a baseline version starts. */
  const BEGINNING_OF_TIME: int := 0

  /** '9999-12-31', the end of every open window. */
  const END_OF_TIME: int := 253_402_214_400_000_000

  const MICROSECONDS_PER_DAY: int := 86_400_000_000

  /** The instant a fact's event day is looked up at. */
  function Midnight(day: int): int {
    day * MICROSECONDS_PER_DAY
  }

  /** The days are cut at midnight: an instant t belongs to day d if and only if it lies between the
      midnights of d and d + 1.  Time runs from day 0 to the start of 9999-12-31. */
  lemma DayOfInstant(d: int, t: int)
    ensures t / 86_400_000_000 == d <==> Midnight(d) <= t < Midnight(d + 1)
    ensures BEGINNING_OF_TIME == Midnight(0) == 0 && END_OF_TIME == Midnight(2_932_896)
  {
  }

  type Client = string

  datatype Attributes = Attributes(category: string, balance: int, status: string)

  /** What a change record does; a delete carries no values. */
  datatype Change =
    | Insert(after: Attributes)
    | Update(after: Attributes)
    | Delete

  datatype Event = Event(client: Client, lsn: int, commitTs: int, change: Change)

  /** One row of dim_client_risk_snapshot, without its client and its lsn. */
  datatype Version = Version(
    key: int,
    attrs: Attributes,
    validFrom: int,
    validTo: int,
    isCurrent: bool,
    isDeleted: bool)

  /** The rows of one client, by source lsn. */
  type History = map<int, Version>

  /** Half-open window membership, the condition of the as-of lookup. */
  predicate Covers(v: Version, t: int) {
    v.validFrom <= t < v.validTo
  }

  /** The two fact tables with a foreign key into the version table. */
  datatype FactTable = FactDeposits | FactTrades

  datatype FactId = FactId(table: FactTable, pk: string)

  /** A fact row; every column other than the two dimension references and the event day
      is opaque. */
  datatype Fact = Fact(client: Client, day: int, snapshotKey: int, measures: string)

  datatype Reason = StaleLsn | DeleteWithNoBaseline

  /** One row of quarantine.rejected_rows. */
  datatype Rejection = Rejection(reason: Reason, client: Client, lsn: int, change: Change)

  /** The part of a change record the baseline seed reads straight from the source files. */
  datatype Op = InsertOp | UpdateOp | DeleteOp

  datatype CdcRecord = CdcRecord(client: Client, lsn: int, op: Op)
}

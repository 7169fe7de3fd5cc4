/** The worker's tables, and what each of the store's writes makes of them. */
module Tables {
  import opened Basics
  import opened Text
  import opened Evidence
  import opened Cluster

  datatype EventStatus = PENDING | IN_FLIGHT | PAID | INCIDENT | NEEDS_ATTENTION

  datatype AttemptStatus = PREPARED | SIGNED | FAILED | EXPIRED | LANDED

  /** What an attempt was built with, besides its request. */
  datatype Params = Params(programId: Key, namespace: Key, scale: int, payer: Key, authority: Key)

  datatype StoredEvent = StoredEvent(eventId: string, request: Request, beneficiaryIds: map<string, string>,
                                     status: EventStatus, attempts: nat)

  /** The signed bytes are the transaction they encode. */
  datatype StoredAttempt = StoredAttempt(eventId: string, attempt: nat, request: Request, params: Params,
                                         signature: Option<string>, raw: Option<Tx>, lastValidBlockHeight: Option<nat>,
                                         status: AttemptStatus)

  datatype SettlementRow = SettlementRow(eventId: string, record: SettlementRecord)

  datatype EntryRow = EntryRow(eventId: string, entry: LedgerEntry)

  datatype PoolRow = PoolRow(eventId: string, payout: PayoutLine)

  type AttemptKey = (string, nat)

  /** `order` lists the events as they were added. */
  datatype Db = Db(order: seq<string>, events: map<string, StoredEvent>, attempts: map<AttemptKey, StoredAttempt>,
                   settlements: seq<SettlementRow>, entries: seq<EntryRow>, pools: seq<PoolRow>)

  const EMPTY: Db := Db([], map[], map[], [], [], [])

  // ----- Events and attempts -----

  function Added(db: Db, request: Request, beneficiaryIds: map<string, string>): Db {
    db.(order := db.order + [request.eventId],
        events := db.events[request.eventId := StoredEvent(request.eventId, request, beneficiaryIds, PENDING, 0)])
  }

  function WithStatus(db: Db, eventId: string, status: EventStatus): Db {
    if eventId in db.events then db.(events := db.events[eventId := db.events[eventId].(status := status)]) else db
  }

  function WithAttempt(db: Db, row: StoredAttempt): Db {
    db.(attempts := db.attempts[(row.eventId, row.attempt) := row])
  }

  /** The next attempt, prepared, and its event in flight. */
  function Begun(db: Db, eventId: string, request: Request, params: Params): Db
    requires eventId in db.events
  {
    var event := db.events[eventId];
    var row := StoredAttempt(eventId, event.attempts + 1, request, params, None, None, None, PREPARED);
    WithAttempt(db.(events := db.events[eventId := event.(status := IN_FLIGHT, attempts := event.attempts + 1)]), row)
  }

  /** Only a prepared attempt takes a signature. */
  function Signed(db: Db, eventId: string, attempt: nat, signature: string, raw: Tx, lastValidBlockHeight: nat): Db {
    if (eventId, attempt) in db.attempts && db.attempts[(eventId, attempt)].status == PREPARED then
      db.(attempts := db.attempts[(eventId, attempt) := db.attempts[(eventId, attempt)].(
            signature := Some(signature), raw := Some(raw), lastValidBlockHeight := Some(lastValidBlockHeight),
            status := SIGNED)])
    else db
  }

  function WithAttemptStatus(db: Db, eventId: string, attempt: nat, status: AttemptStatus): Db {
    if (eventId, attempt) in db.attempts then
      db.(attempts := db.attempts[(eventId, attempt) := db.attempts[(eventId, attempt)].(status := status)])
    else db
  }

  /** Attempts 1 to n of an event, and none beyond. */
  ghost predicate Numbered(db: Db, eventId: string, n: nat) {
    forall k: nat :: (eventId, k) in db.attempts <==> 1 <= k <= n
  }

  /** An event's attempts in order. */
  function AttemptsOf(db: Db, eventId: string, n: nat): (rows: seq<StoredAttempt>)
    requires Numbered(db, eventId, n)
    ensures |rows| == n
  {
    seq(n, i requires 0 <= i < n => db.attempts[(eventId, i + 1)])
  }

  // ----- Payments -----

  predicate HasSettlement(rows: seq<SettlementRow>, eventId: string, signature: string) {
    exists i :: 0 <= i < |rows| && (rows[i].eventId == eventId || rows[i].record.signature == signature)
  }

  /** One row per event, and one per signature: a second is ignored. */
  function WithSettlement(rows: seq<SettlementRow>, row: SettlementRow): seq<SettlementRow> {
    if HasSettlement(rows, row.eventId, row.record.signature) then rows else rows + [row]
  }

  predicate HasEntry(rows: seq<EntryRow>, entryId: string) {
    exists i :: 0 <= i < |rows| && rows[i].entry.entryId == entryId
  }

  function WithEntry(rows: seq<EntryRow>, row: EntryRow): seq<EntryRow> {
    if HasEntry(rows, row.entry.entryId) then rows else rows + [row]
  }

  function WithEntries(rows: seq<EntryRow>, eventId: string, entries: seq<LedgerEntry>): seq<EntryRow> {
    if entries == [] then rows
    else
      var n := |entries| - 1;
      WithEntry(WithEntries(rows, eventId, entries[..n]), EntryRow(eventId, entries[n]))
  }

  predicate HasPool(rows: seq<PoolRow>, eventId: string, role: string) {
    exists i :: 0 <= i < |rows| && rows[i].eventId == eventId && rows[i].payout.role == role
  }

  function WithPool(rows: seq<PoolRow>, row: PoolRow): seq<PoolRow> {
    if HasPool(rows, row.eventId, row.payout.role) then rows else rows + [row]
  }

  function WithPools(rows: seq<PoolRow>, eventId: string, payouts: seq<PayoutLine>): seq<PoolRow> {
    if payouts == [] then rows
    else
      var n := |payouts| - 1;
      WithPool(WithPools(rows, eventId, payouts[..n]), PoolRow(eventId, payouts[n]))
  }

  function MarkedPaid(db: Db, eventId: string, landed: Option<nat>): Db {
    WithStatus(if landed.Some? then WithAttemptStatus(db, eventId, landed.value, LANDED) else db, eventId, PAID)
  }

  /** The settlement, its ledger rows, the landed attempt and the paid event, all at once. */
  function PaidRecorded(db: Db, eventId: string, landed: Option<nat>, paid: Reconciliation): Db {
    MarkedPaid(db, eventId, landed).(
      settlements := WithSettlement(db.settlements, SettlementRow(eventId, paid.record)),
      entries := WithEntries(db.entries, eventId, paid.entries),
      pools := WithPools(db.pools, eventId, paid.pools))
  }

  // ----- Writing a payment again changes nothing -----

  lemma {:induction false} EntriesStay(rows: seq<EntryRow>, eventId: string, entries: seq<LedgerEntry>)
    ensures rows <= WithEntries(rows, eventId, entries)
    ensures var after := WithEntries(rows, eventId, entries);
            forall i :: |rows| <= i < |after| ==> after[i].eventId == eventId
    ensures forall i :: 0 <= i < |entries| ==> HasEntry(WithEntries(rows, eventId, entries), entries[i].entryId)
  {
    if entries != [] {
      var n := |entries| - 1;
      EntriesStay(rows, eventId, entries[..n]);
      var before, after := WithEntries(rows, eventId, entries[..n]), WithEntries(rows, eventId, entries);
      forall i | 0 <= i < |entries|
        ensures HasEntry(after, entries[i].entryId)
      {
        if i < n {
          assert entries[..n][i] == entries[i];
          var j :| 0 <= j < |before| && before[j].entry.entryId == entries[i].entryId;
          assert after[j] == before[j];
        } else if !HasEntry(before, entries[n].entryId) {
          assert after[|before|] == EntryRow(eventId, entries[n]);
        }
      }
    }
  }

  lemma {:induction false} EntriesAgain(rows: seq<EntryRow>, eventId: string, entries: seq<LedgerEntry>)
    requires forall i :: 0 <= i < |entries| ==> HasEntry(rows, entries[i].entryId)
    ensures WithEntries(rows, eventId, entries) == rows
  {
    if entries != [] {
      EntriesAgain(rows, eventId, entries[..|entries| - 1]);
    }
  }

  lemma {:induction false} PoolsStay(rows: seq<PoolRow>, eventId: string, payouts: seq<PayoutLine>)
    ensures rows <= WithPools(rows, eventId, payouts)
    ensures var after := WithPools(rows, eventId, payouts);
            forall i :: |rows| <= i < |after| ==> after[i].eventId == eventId
    ensures forall i :: 0 <= i < |payouts| ==> HasPool(WithPools(rows, eventId, payouts), eventId, payouts[i].role)
  {
    if payouts != [] {
      var n := |payouts| - 1;
      PoolsStay(rows, eventId, payouts[..n]);
      var before, after := WithPools(rows, eventId, payouts[..n]), WithPools(rows, eventId, payouts);
      forall i | 0 <= i < |payouts|
        ensures HasPool(after, eventId, payouts[i].role)
      {
        if i < n {
          assert payouts[..n][i] == payouts[i];
          var j :| 0 <= j < |before| && before[j].eventId == eventId && before[j].payout.role == payouts[i].role;
          assert after[j] == before[j];
        } else if !HasPool(before, eventId, payouts[n].role) {
          assert after[|before|] == PoolRow(eventId, payouts[n]);
        }
      }
    }
  }

  lemma {:induction false} PoolsAgain(rows: seq<PoolRow>, eventId: string, payouts: seq<PayoutLine>)
    requires forall i :: 0 <= i < |payouts| ==> HasPool(rows, eventId, payouts[i].role)
    ensures WithPools(rows, eventId, payouts) == rows
  {
    if payouts != [] {
      PoolsAgain(rows, eventId, payouts[..|payouts| - 1]);
    }
  }

  lemma SettlementAgain(rows: seq<SettlementRow>, row: SettlementRow)
    ensures WithSettlement(WithSettlement(rows, row), row) == WithSettlement(rows, row)
  {
    var once := WithSettlement(rows, row);
    if !HasSettlement(rows, row.eventId, row.record.signature) {
      assert once[|rows|] == row;
    }
  }

  lemma MarkedAgain(db: Db, eventId: string, landed: Option<nat>)
    ensures var once := MarkedPaid(db, eventId, landed);
            var twice := MarkedPaid(once, eventId, landed);
            twice.order == once.order && twice.events == once.events && twice.attempts == once.attempts
  {}

  /** Marking looks only at the events and attempts. */
  lemma MarkedElsewhere(db: Db, rows: Db, eventId: string, landed: Option<nat>)
    requires rows.order == db.order && rows.events == db.events && rows.attempts == db.attempts
    ensures var a, b := MarkedPaid(db, eventId, landed), MarkedPaid(rows, eventId, landed);
            a.order == b.order && a.events == b.events && a.attempts == b.attempts
  {}

  /** Recording the same payment twice is recording it once, whatever the tables held. */
  lemma ReplayChangesNothing(db: Db, eventId: string, landed: Option<nat>, paid: Reconciliation)
    ensures var once := PaidRecorded(db, eventId, landed, paid);
            PaidRecorded(once, eventId, landed, paid) == once
  {
    var once := PaidRecorded(db, eventId, landed, paid);
    SettlementAgain(db.settlements, SettlementRow(eventId, paid.record));
    EntriesStay(db.entries, eventId, paid.entries);
    PoolsStay(db.pools, eventId, paid.pools);
    EntriesAgain(once.entries, eventId, paid.entries);
    PoolsAgain(once.pools, eventId, paid.pools);
    MarkedAgain(db, eventId, landed);
    MarkedElsewhere(MarkedPaid(db, eventId, landed), once, eventId, landed);
    hide WithEntries, WithPools, WithSettlement, MarkedPaid;
  }
}

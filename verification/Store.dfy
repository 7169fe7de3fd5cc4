/** The store: the worker's tables, written one statement or one transaction at a time. */
module Stores {
  import opened Basics
  import opened Text
  import opened Evidence
  import opened Cluster
  import opened Tables
  import opened Books

  /** What comes of a step that may throw, or be the last the process takes. */
  datatype Try<+T> = Done(value: T) | Threw | Crashed
  {
    predicate IsFailure() {
      !Done?
    }

    function PropagateFailure<U>(): Try<U>
      requires IsFailure()
    {
      if Threw? then Threw else Crashed
    }

    function Extract(): T
      requires Done?
    {
      value
    }
  }

  datatype Fate = Goes | Throws | Dies

  datatype Enqueued = ADDED | UNCHANGED

  /** The events of a status, in the order they were added. */
  function Listed(order: seq<string>, events: map<string, StoredEvent>, status: EventStatus): (rows: seq<StoredEvent>)
    requires forall i :: 0 <= i < |order| ==> order[i] in events
    ensures forall i :: 0 <= i < |rows| ==>
              rows[i].status == status && exists j :: 0 <= j < |order| && rows[i] == events[order[j]]
  {
    if order == [] then []
    else
      var n := |order| - 1;
      var rest := Listed(order[..n], events, status);
      assert forall j :: 0 <= j < n ==> order[..n][j] == order[j];
      assert forall i :: 0 <= i < |rest| ==> exists j :: 0 <= j < |order| && rest[i] == events[order[j]] by {
        forall i | 0 <= i < |rest|
          ensures exists j :: 0 <= j < |order| && rest[i] == events[order[j]]
        {
          var j :| 0 <= j < n && rest[i] == events[order[..n][j]];
          assert rest[i] == events[order[j]];
        }
      }
      rest + if events[order[n]].status == status then [events[order[n]]] else []
  }

  /** Every event is in the order, once. */
  ghost predicate IsListable(db: Db) {
    && (forall i :: 0 <= i < |db.order| ==> db.order[i] in db.events)
    && (forall i, j :: 0 <= i < j < |db.order| ==> db.order[i] != db.order[j])
    && (forall e :: e in db.events ==> e in db.order)
  }

  predicate AreDifferent(rows: seq<StoredEvent>) {
    forall i, j :: 0 <= i < j < |rows| ==> rows[i].eventId != rows[j].eventId
  }

  /** No event is listed twice. */
  lemma {:induction false} ListedOnce(order: seq<string>, events: map<string, StoredEvent>, status: EventStatus)
    requires forall i :: 0 <= i < |order| ==> order[i] in events && events[order[i]].eventId == order[i]
    requires forall i, j :: 0 <= i < j < |order| ==> order[i] != order[j]
    ensures AreDifferent(Listed(order, events, status))
  {
    if order != [] {
      var n := |order| - 1;
      ListedOnce(order[..n], events, status);
      var rest := Listed(order[..n], events, status);
      forall i | 0 <= i < |rest|
        ensures rest[i].eventId != order[n]
      {
        var k :| 0 <= k < n && rest[i] == events[order[..n][k]];
        assert order[..n][k] == order[k] != order[n];
      }
    }
  }

  /** The listing keeps the order the events were added in. */
  lemma {:induction false} ListedInOrder(order: seq<string>, events: map<string, StoredEvent>, status: EventStatus,
                                         i: nat, j: nat) returns (a: nat, b: nat)
    requires forall k :: 0 <= k < |order| ==> order[k] in events
    requires i < j < |Listed(order, events, status)|
    ensures a < b < |order|
    ensures Listed(order, events, status)[i] == events[order[a]] && Listed(order, events, status)[j] == events[order[b]]
  {
    var n := |order| - 1;
    var rest := Listed(order[..n], events, status);
    if j < |rest| {
      a, b := ListedInOrder(order[..n], events, status, i, j);
      assert order[..n][a] == order[a] && order[..n][b] == order[b];
    } else {
      a :| 0 <= a < n && rest[i] == events[order[..n][a]];
      b := n;
    }
  }

  /** Every event of the status is listed. */
  lemma {:induction false} ListedAll(order: seq<string>, events: map<string, StoredEvent>, status: EventStatus, j: nat)
    requires forall i :: 0 <= i < |order| ==> order[i] in events
    requires j < |order| && events[order[j]].status == status
    ensures events[order[j]] in Listed(order, events, status)
  {
    var n := |order| - 1;
    if j < n {
      assert order[..n][j] == order[j];
      ListedAll(order[..n], events, status, j);
    }
  }

  datatype Balance = Balance(beneficiaryId: string, amount: nat)

  function BalanceTotal(balances: seq<Balance>): nat {
    if balances == [] then 0 else BalanceTotal(balances[..|balances| - 1]) + balances[|balances| - 1].amount
  }

  /** One balance per beneficiary, each what its entries come to. */
  ghost predicate AreBalances(balances: seq<Balance>, rows: seq<EntryRow>) {
    && (forall i, j :: 0 <= i < j < |balances| ==> balances[i].beneficiaryId != balances[j].beneficiaryId)
    && (forall i :: 0 <= i < |balances| ==> balances[i].amount == BalanceOf(rows, balances[i].beneficiaryId))
    && (forall k :: 0 <= k < |rows| ==>
          exists i :: 0 <= i < |balances| && balances[i].beneficiaryId == rows[k].entry.beneficiaryId)
  }

  lemma {:induction false} BalanceRaised(balances: seq<Balance>, at: nat, amount: nat)
    requires at < |balances|
    ensures BalanceTotal(balances[at := balances[at].(amount := balances[at].amount + amount)])
         == BalanceTotal(balances) + amount
  {
    var n := |balances| - 1;
    var raised := balances[at := balances[at].(amount := balances[at].amount + amount)];
    if at < n {
      assert raised[..n] == balances[..n][at := raised[at]];
      BalanceRaised(balances[..n], at, amount);
    } else {
      assert raised[..n] == balances[..n];
    }
  }

  lemma {:induction false} NoBalance(rows: seq<EntryRow>, beneficiaryId: string)
    requires forall k :: 0 <= k < |rows| ==> rows[k].entry.beneficiaryId != beneficiaryId
    ensures BalanceOf(rows, beneficiaryId) == 0
  {
    if rows != [] {
      NoBalance(rows[..|rows| - 1], beneficiaryId);
    }
  }

  class Store {
    var order: seq<string>
    var events: map<string, StoredEvent>
    var attempts: map<AttemptKey, StoredAttempt>
    var settlements: seq<SettlementRow>
    var entries: seq<EntryRow>
    var pools: seq<PoolRow>
    /** Whether each call in turn goes through, throws, or finds the process dead. */
    const fates: nat -> Fate
    var calls: nat

    constructor (fates: nat -> Fate)
      ensures Tables() == EMPTY && Listable() && this.fates == fates
    {
      this.fates := fates;
      order, events, attempts, settlements, entries, pools := [], map[], map[], [], [], [];
      calls := 0;
    }

    /** What the tables hold. */
    function Tables(): Db
      reads this
    {
      Db(order, events, attempts, settlements, entries, pools)
    }

    ghost predicate Listable()
      reads this
    {
      IsListable(Tables())
    }

    /** Every call goes through. */
    ghost predicate Steady() {
      forall i: nat :: fates(i) == Goes
    }

    method Reach() returns (r: Try<()>)
      modifies this`calls
      ensures Steady() ==> r.Done?
    {
      var fate := fates(calls);
      calls := calls + 1;
      match fate {
        case Goes => return Done(());
        case Throws => return Threw;
        case Dies => return Crashed;
      }
    }

    /** Add an event once; another request or other beneficiaries under its id are refused. */
    method Enqueue(request: Request, beneficiaryIds: map<string, string>) returns (r: Try<Enqueued>)
      requires Listable()
      modifies this
      ensures Listable()
      ensures r == Done(ADDED) ==>
                request.eventId !in old(events) && Tables() == Added(old(Tables()), request, beneficiaryIds)
      ensures r == Done(UNCHANGED) ==>
                && request.eventId in events && events[request.eventId].request == request
                && events[request.eventId].beneficiaryIds == beneficiaryIds
      ensures r != Done(ADDED) ==> Tables() == old(Tables())
      ensures Steady() ==>
                r == if request.eventId !in old(events) then Done(ADDED)
                     else if events[request.eventId].request == request
                             && events[request.eventId].beneficiaryIds == beneficiaryIds then Done(UNCHANGED)
                     else Threw
    {
      var _ :- Reach();
      if request.eventId in events {
        var existing := events[request.eventId];
        if existing.request != request || existing.beneficiaryIds != beneficiaryIds {
          return Threw;
        }
        return Done(UNCHANGED);
      }
      events := events[request.eventId := StoredEvent(request.eventId, request, beneficiaryIds, PENDING, 0)];
      order := order + [request.eventId];
      return Done(ADDED);
    }

    method Event(eventId: string) returns (r: Try<Option<StoredEvent>>)
      modifies this`calls
      ensures r.Done? ==> r.value == if eventId in events then Some(events[eventId]) else None
      ensures Steady() ==> r.Done?
    {
      var _ :- Reach();
      return Done(if eventId in events then Some(events[eventId]) else None);
    }

    /** The first `limit` events of a status, or all of them. */
    method EventsWithStatus(status: EventStatus, limit: Option<nat>) returns (r: Try<seq<StoredEvent>>)
      requires Listable()
      modifies this`calls
      ensures r.Done? ==> var rows := Listed(order, events, status);
                          r.value == if limit.None? || limit.value >= |rows| then rows else rows[..limit.value]
      ensures Steady() ==> r.Done?
    {
      var _ :- Reach();
      var rows: seq<StoredEvent> := [];
      for i := 0 to |order|
        invariant rows == Listed(order[..i], events, status)
      {
        assert order[..i + 1][..i] == order[..i];
        if events[order[i]].status == status {
          rows := rows + [events[order[i]]];
        }
      }
      assert order[..|order|] == order;
      return Done(if limit.None? || limit.value >= |rows| then rows else rows[..limit.value]);
    }

    /** An event's attempts, first to last. */
    method Attempts(eventId: string, ghost n: nat) returns (r: Try<seq<StoredAttempt>>)
      requires Numbered(Tables(), eventId, n)
      modifies this`calls
      ensures r.Done? ==> r.value == AttemptsOf(Tables(), eventId, n)
      ensures Steady() ==> r.Done?
    {
      var _ :- Reach();
      var rows: seq<StoredAttempt> := [];
      while (eventId, |rows| + 1) in attempts
        invariant |rows| <= n
        invariant forall i :: 0 <= i < |rows| ==> rows[i] == attempts[(eventId, i + 1)]
        decreases n - |rows|
      {
        rows := rows + [attempts[(eventId, |rows| + 1)]];
      }
      return Done(rows);
    }

    /** The attempt and its event in flight, in one transaction; only for a pending event. */
    method BeginAttempt(eventId: string, request: Request, params: Params) returns (r: Try<nat>)
      requires Listable()
      modifies this
      ensures Listable()
      ensures r.Done? ==> && eventId in old(events) && old(events)[eventId].status == PENDING
                          && r.value == old(events)[eventId].attempts + 1
                          && Tables() == Begun(old(Tables()), eventId, request, params)
      ensures !r.Done? ==> Tables() == old(Tables())
      ensures Steady() ==> (r.Done? <==> && eventId in old(events) && old(events)[eventId].status == PENDING
                                         && (eventId, old(events)[eventId].attempts + 1) !in old(attempts))
    {
      var _ :- Reach();
      if eventId !in events || events[eventId].status != PENDING {
        return Threw;
      }
      var attempt := events[eventId].attempts + 1;
      if (eventId, attempt) in attempts {
        return Threw;
      }
      attempts := attempts[(eventId, attempt) := StoredAttempt(eventId, attempt, request, params, None, None, None, PREPARED)];
      events := events[eventId := events[eventId].(status := IN_FLIGHT, attempts := attempt)];
      return Done(attempt);
    }

    /** The signature and the signed bytes, of a prepared attempt only. */
    method RecordSigned(eventId: string, attempt: nat, signature: string, raw: Tx, lastValidBlockHeight: nat)
      returns (r: Try<()>)
      requires Listable()
      modifies this
      ensures Listable()
      ensures Tables() == if r.Done? then Signed(old(Tables()), eventId, attempt, signature, raw, lastValidBlockHeight)
                          else old(Tables())
      ensures Steady() ==> r.Done?
    {
      var _ :- Reach();
      if (eventId, attempt) in attempts && attempts[(eventId, attempt)].status == PREPARED {
        attempts := attempts[(eventId, attempt) := attempts[(eventId, attempt)].(
          signature := Some(signature), raw := Some(raw), lastValidBlockHeight := Some(lastValidBlockHeight),
          status := SIGNED)];
      }
      return Done(());
    }

    method SetAttemptStatus(eventId: string, attempt: nat, status: AttemptStatus) returns (r: Try<()>)
      requires Listable()
      modifies this
      ensures Listable()
      ensures Tables() == if r.Done? then WithAttemptStatus(old(Tables()), eventId, attempt, status) else old(Tables())
      ensures Steady() ==> r.Done?
    {
      var _ :- Reach();
      if (eventId, attempt) in attempts {
        attempts := attempts[(eventId, attempt) := attempts[(eventId, attempt)].(status := status)];
      }
      return Done(());
    }

    method SetEventStatus(eventId: string, status: EventStatus) returns (r: Try<()>)
      requires Listable()
      modifies this
      ensures Listable()
      ensures Tables() == if r.Done? then WithStatus(old(Tables()), eventId, status) else old(Tables())
      ensures Steady() ==> r.Done?
    {
      var _ :- Reach();
      if eventId in events {
        events := events[eventId := events[eventId].(status := status)];
      }
      return Done(());
    }

    method InsertEntries(eventId: string, direct: seq<LedgerEntry>)
      modifies this`entries
      ensures entries == WithEntries(old(entries), eventId, direct)
    {
      for i := 0 to |direct|
        invariant entries == WithEntries(old(entries), eventId, direct[..i])
      {
        assert direct[..i + 1][..i] == direct[..i];
        if !HasEntry(entries, direct[i].entryId) {
          entries := entries + [EntryRow(eventId, direct[i])];
        }
      }
      assert direct[..|direct|] == direct;
    }

    method InsertPools(eventId: string, payouts: seq<PayoutLine>)
      modifies this`pools
      ensures pools == WithPools(old(pools), eventId, payouts)
    {
      for i := 0 to |payouts|
        invariant pools == WithPools(old(pools), eventId, payouts[..i])
      {
        assert payouts[..i + 1][..i] == payouts[..i];
        if !HasPool(pools, eventId, payouts[i].role) {
          pools := pools + [PoolRow(eventId, payouts[i])];
        }
      }
      assert payouts[..|payouts|] == payouts;
    }

    /** The settlement, its ledger rows, the landed attempt and the paid event, in one transaction. */
    method RecordPaid(eventId: string, landed: Option<nat>, paid: Reconciliation) returns (r: Try<()>)
      requires Listable()
      modifies this
      ensures Listable()
      ensures Tables() == if r.Done? then PaidRecorded(old(Tables()), eventId, landed, paid) else old(Tables())
      ensures Steady() ==> r.Done?
    {
      var _ :- Reach();
      var record := paid.record;
      if !HasSettlement(settlements, eventId, record.signature) {
        settlements := settlements + [SettlementRow(eventId, record)];
      }
      InsertEntries(eventId, paid.entries);
      InsertPools(eventId, paid.pools);
      if landed.Some? && (eventId, landed.value) in attempts {
        attempts := attempts[(eventId, landed.value) := attempts[(eventId, landed.value)].(status := LANDED)];
      }
      if eventId in events {
        events := events[eventId := events[eventId].(status := PAID)];
      }
      return Done(());
    }

    /** Paid amounts per beneficiary, before they are sorted for display. */
    method Balances() returns (balances: seq<Balance>)
      ensures AreBalances(balances, entries) && BalanceTotal(balances) == EntryTotal(entries)
    {
      balances := [];
      hide AreBalances;
      assert AreBalances([], entries[..0]) by {
        NoBalances();
      }
      for k := 0 to |entries|
        invariant AreBalances(balances, entries[..k]) && BalanceTotal(balances) == EntryTotal(entries[..k])
      {
        assert entries[..k + 1][..k] == entries[..k];
        balances := Credit(balances, entries[..k + 1]);
      }
      assert entries[..|entries|] == entries;
    }
  }

  lemma NoBalances()
    ensures AreBalances([], [])
  {}

  /** Add the last row's amount to its beneficiary's balance, or open one. */
  method Credit(balances: seq<Balance>, rows: seq<EntryRow>) returns (after: seq<Balance>)
    requires rows != [] && AreBalances(balances, rows[..|rows| - 1])
    ensures AreBalances(after, rows)
    ensures BalanceTotal(after) == BalanceTotal(balances) + rows[|rows| - 1].entry.amount
  {
    var last := rows[|rows| - 1].entry;
    var i := 0;
    hide BalanceTotal, BalanceOf;
    while i < |balances| && balances[i].beneficiaryId != last.beneficiaryId
      invariant i <= |balances|
      invariant forall j :: 0 <= j < i ==> balances[j].beneficiaryId != last.beneficiaryId
    {
      i := i + 1;
    }
    if i < |balances| {
      BalanceRaised(balances, i, last.amount);
      after := balances[i := balances[i].(amount := balances[i].amount + last.amount)];
    } else {
      NewBeneficiary(balances, rows[..|rows| - 1], last.beneficiaryId);
      BalanceOpened(balances, Balance(last.beneficiaryId, last.amount));
      after := balances + [Balance(last.beneficiaryId, last.amount)];
    }
    StillBalances(balances, after, rows, i);
  }

  lemma BalanceOpened(balances: seq<Balance>, added: Balance)
    ensures BalanceTotal(balances + [added]) == BalanceTotal(balances) + added.amount
  {}

  lemma NewBeneficiary(balances: seq<Balance>, rows: seq<EntryRow>, beneficiaryId: string)
    requires AreBalances(balances, rows)
    requires forall i :: 0 <= i < |balances| ==> balances[i].beneficiaryId != beneficiaryId
    ensures BalanceOf(rows, beneficiaryId) == 0
  {
    NoBalance(rows, beneficiaryId);
  }

  /** One more row, added to its beneficiary's balance. */
  lemma StillBalances(before: seq<Balance>, after: seq<Balance>, rows: seq<EntryRow>, at: nat)
    requires rows != []
    requires var n := |rows| - 1;
             var last := rows[n].entry;
             && AreBalances(before, rows[..n]) && at <= |before|
             && (forall i :: 0 <= i < at ==> before[i].beneficiaryId != last.beneficiaryId)
             && (at < |before| ==>
                   && before[at].beneficiaryId == last.beneficiaryId
                   && after == before[at := before[at].(amount := before[at].amount + last.amount)])
             && (at == |before| ==>
                   && BalanceOf(rows[..n], last.beneficiaryId) == 0
                   && after == before + [Balance(last.beneficiaryId, last.amount)])
    ensures AreBalances(after, rows)
  {
    var n := |rows| - 1;
    forall k | 0 <= k < |rows|
      ensures exists i :: 0 <= i < |after| && after[i].beneficiaryId == rows[k].entry.beneficiaryId
    {
      if k < n {
        assert rows[..n][k] == rows[k];
        var i :| 0 <= i < |before| && before[i].beneficiaryId == rows[k].entry.beneficiaryId;
        assert after[i].beneficiaryId == before[i].beneficiaryId;
      } else {
        assert after[at].beneficiaryId == rows[n].entry.beneficiaryId;
      }
    }
  }
}

/** Each of the worker's writes and sends keeps the protocol's invariant. */
module ProtocolSteps {
  import opened Basics
  import opened Program
  import opened Text
  import opened Runs
  import opened Evidence
  import opened Cluster
  import opened EvidenceLaws
  import opened Tables
  import opened Books
  import opened Protocol

  // ----- A write about one event -----

  ghost predicate SameElsewhere(db: Db, after: Db, e: string) {
    && (forall f :: f != e ==>
          && (f in after.events <==> f in db.events)
          && (f in db.events ==> after.events[f] == db.events[f]))
    && (forall f: string, k: nat :: f != e ==>
          && ((f, k) in after.attempts <==> (f, k) in db.attempts)
          && ((f, k) in db.attempts ==> after.attempts[(f, k)] == db.attempts[(f, k)]))
  }

  /** Rows of the event that carried something sent still do. */
  ghost predicate StillCarries(db: Db, after: Db, c: Chain, forwarded: set<Tx>, e: string) {
    forall tx, k: nat :: tx in forwarded && Carries(db, c, tx, e, k) ==> Carries(after, c, tx, e, k)
  }

  ghost predicate IncidentIfSaid(rules: Rules, db: Db, c: Chain, e: string)
    requires e in db.events
  {
    db.events[e].status == INCIDENT ==>
      exists j, namespace: Key :: 0 <= j < |c.landed| && IsIncident(rules, db, c.landed[j], e, namespace)
  }

  lemma TidyFrame(rules: Rules, db: Db, after: Db, e: string)
    requires Tidy(rules, db) && SameElsewhere(db, after, e) && e in after.events && EventTidy(rules, after, e)
    ensures Tidy(rules, after)
  {}

  lemma RecordedFrame(db: Db, after: Db, c: Chain, forwarded: set<Tx>, e: string)
    requires Recorded(db, c, forwarded) && SameElsewhere(db, after, e) && StillCarries(db, after, c, forwarded, e)
    ensures Recorded(after, c, forwarded)
  {
    hide IsDead;
    forall tx | tx in forwarded
      ensures exists f: string, k: nat :: Carries(after, c, tx, f, k)
    {
      var f: string, k: nat :| Carries(db, c, tx, f, k);
      assert Carries(after, c, tx, f, k);
    }
  }

  lemma RowProvenFrame(client: Client, db: Db, after: Db, c: Chain, e: string, row: SettlementRow)
    requires RowProven(client, db, c, row) && SameElsewhere(db, after, e) && row.eventId != e
    ensures RowProven(client, after, c, row)
  {
    hide Proves;
    var f := row.eventId;
    if db.events[f].attempts != 0 {
      var k: nat :| (f, k) in db.attempts && db.attempts[(f, k)].params.namespace == row.record.namespace
                    && db.attempts[(f, k)].params.scale == row.record.scale;
      assert (f, k) in after.attempts;
    }
  }

  lemma PaymentsFrame(client: Client, db: Db, after: Db, c: Chain, e: string)
    requires PaymentsProven(client, db, c) && SameElsewhere(db, after, e) && after.settlements == db.settlements
    requires e in db.events ==> db.events[e].status != PAID
    requires e in after.events ==> after.events[e].status != PAID
    ensures PaymentsProven(client, after, c)
  {}

  lemma IncidentFrame(rules: Rules, db: Db, after: Db, landing: Landing, e: string, f: string, namespace: Key)
    requires SameElsewhere(db, after, e) && f != e && f in db.events && IsIncident(rules, db, landing, f, namespace)
    ensures f in after.events && IsIncident(rules, after, landing, f, namespace)
  {}

  lemma IncidentsFrame(rules: Rules, db: Db, after: Db, c: Chain, e: string)
    requires IncidentsHold(rules, db, c) && SameElsewhere(db, after, e)
    requires e in after.events && IncidentIfSaid(rules, after, c, e)
    ensures IncidentsHold(rules, after, c)
  {
    hide IsIncident;
    forall f | f in after.events && after.events[f].status == INCIDENT
      ensures exists j, namespace: Key :: 0 <= j < |c.landed| && IsIncident(rules, after, c.landed[j], f, namespace)
    {
      if f != e {
        var j, namespace: Key :| 0 <= j < |c.landed| && IsIncident(rules, db, c.landed[j], f, namespace);
        IncidentFrame(rules, db, after, c.landed[j], e, f, namespace);
      }
    }
  }

  /** A write about an event that is not paid, and that leaves the ledger tables alone. */
  lemma WriteKeeps(rules: Rules, w: World, after: Db, e: string)
    requires Sound(rules, w) && SameElsewhere(w.db, after, e)
    requires after.settlements == w.db.settlements && after.entries == w.db.entries && after.pools == w.db.pools
    requires e in w.db.events ==> w.db.events[e].status != PAID
    requires e in after.events && after.events[e].status != PAID && EventTidy(rules, after, e)
    requires StillCarries(w.db, after, w.chain, w.forwarded, e) && IncidentIfSaid(rules, after, w.chain, e)
    ensures Sound(rules, w.(db := after))
  {
    hide SameElsewhere, EventTidy, StillCarries, IncidentIfSaid, Tidy, Recorded, PaymentsProven, IncidentsHold,
      Unique, EntriesBooked, PoolsBooked, EntryTotal, PoolTotal, DroppedTotal, SettledTotal;
    TidyFrame(rules, w.db, after, e);
    RecordedFrame(w.db, after, w.chain, w.forwarded, e);
    PaymentsFrame(rules.client, w.db, after, w.chain, e);
    IncidentsFrame(rules, w.db, after, w.chain, e);
  }

  // ----- The writes -----

  lemma AddedTidy(rules: Rules, db: Db, request: Request, beneficiaryIds: map<string, string>)
    requires Tidy(rules, db) && request.eventId !in db.events
    ensures var after := Added(db, request, beneficiaryIds);
            SameElsewhere(db, after, request.eventId) && EventTidy(rules, after, request.eventId)
    ensures forall k: nat :: (request.eventId, k) !in db.attempts
  {}

  /** Adding an event. */
  lemma EnqueueKeeps(rules: Rules, w: World, request: Request, beneficiaryIds: map<string, string>)
    requires Sound(rules, w) && request.eventId !in w.db.events
    ensures Sound(rules, w.(db := Added(w.db, request, beneficiaryIds)))
  {
    AddedTidy(rules, w.db, request, beneficiaryIds);
    hide EventTidy, SameElsewhere, Tidy, Recorded, PaymentsProven, IncidentsHold, BooksInv, IsDead;
    WriteKeeps(rules, w, Added(w.db, request, beneficiaryIds), request.eventId);
  }

  lemma BegunTidy(rules: Rules, db: Db, e: string, params: Params)
    requires e in db.events && EventTidy(rules, db, e) && db.events[e].status == PENDING
    requires db.events[e].attempts < rules.maxAttempts && params.programId == rules.client.env.programId
    ensures (e, db.events[e].attempts + 1) !in db.attempts
    ensures var after := Begun(db, e, db.events[e].request, params);
            SameElsewhere(db, after, e) && EventTidy(rules, after, e)
    ensures forall k: nat :: (e, k) in db.attempts ==>
              IsClosed(db.attempts[(e, k)].status)
              && (e, k) in Begun(db, e, db.events[e].request, params).attempts
              && Begun(db, e, db.events[e].request, params).attempts[(e, k)] == db.attempts[(e, k)]
  {}

  /** Beginning an attempt. */
  lemma BeginKeeps(rules: Rules, w: World, e: string, params: Params)
    requires Sound(rules, w) && e in w.db.events && w.db.events[e].status == PENDING
    requires w.db.events[e].attempts < rules.maxAttempts && params.programId == rules.client.env.programId
    ensures (e, w.db.events[e].attempts + 1) !in w.db.attempts
    ensures Sound(rules, w.(db := Begun(w.db, e, w.db.events[e].request, params)))
  {
    BegunTidy(rules, w.db, e, params);
    hide EventTidy, SameElsewhere, Recorded, PaymentsProven, IncidentsHold, BooksInv, IsDead;
    WriteKeeps(rules, w, Begun(w.db, e, w.db.events[e].request, params), e);
  }

  lemma RowReplaced(rules: Rules, db: Db, e: string, k: nat, row: StoredAttempt)
    requires (e, k) in db.attempts && e in db.events && EventTidy(rules, db, e)
    requires RowTidy(rules.client, row, db.events[e], k)
    ensures var after := db.(attempts := db.attempts[(e, k) := row]);
            SameElsewhere(db, after, e) && EventTidy(rules, after, e)
  {}

  lemma IncidentWithRow(rules: Rules, db: Db, c: Chain, e: string, k: nat, row: StoredAttempt)
    requires (e, k) in db.attempts && e in db.events && IncidentIfSaid(rules, db, c, e)
    requires row.params == db.attempts[(e, k)].params
    ensures IncidentIfSaid(rules, db.(attempts := db.attempts[(e, k) := row]), c, e)
  {
    hide Contradicts;
    var after := db.(attempts := db.attempts[(e, k) := row]);
    if db.events[e].status == INCIDENT {
      var j, namespace: Key :| 0 <= j < |c.landed| && IsIncident(rules, db, c.landed[j], e, namespace);
      assert IsIncident(rules, after, c.landed[j], e, namespace);
    }
  }

  /** Change one row of an event that is not paid, keeping what it carries and was built with. */
  lemma RowKeeps(rules: Rules, w: World, e: string, k: nat, row: StoredAttempt)
    requires Sound(rules, w) && (e, k) in w.db.attempts && e in w.db.events && w.db.events[e].status != PAID
    requires RowTidy(rules.client, row, w.db.events[e], k)
    requires forall tx :: tx in w.forwarded && Carries(w.db, w.chain, tx, e, k) ==>
               row.raw == Some(tx) && row.status != PREPARED
               && (row.status == SIGNED || row.status == LANDED || IsDead(w.chain, tx))
    requires row.params == w.db.attempts[(e, k)].params
    ensures Sound(rules, w.(db := w.db.(attempts := w.db.attempts[(e, k) := row])))
  {
    hide EventTidy, SameElsewhere, Recorded, PaymentsProven, IsIncident, BooksInv, IsDead, RowTidy;
    RowReplaced(rules, w.db, e, k, row);
    IncidentWithRow(rules, w.db, w.chain, e, k, row);
    hide IncidentIfSaid, IncidentsHold, Tidy;
    WriteKeeps(rules, w, w.db.(attempts := w.db.attempts[(e, k) := row]), e);
  }

  /** The signature and the bytes are stored before anything is sent. */
  lemma SignKeeps(rules: Rules, w: World, e: string, k: nat, tx: Tx)
    requires Sound(rules, w) && (e, k) in w.db.attempts && w.db.attempts[(e, k)].status == PREPARED
    requires e in w.db.events && w.db.events[e].status != PAID
    requires IsBuilt(rules.client, w.db.attempts[(e, k)].request, w.db.attempts[(e, k)].params, tx)
    ensures Sound(rules, w.(db := Signed(w.db, e, k, tx.signature, tx, tx.lastValidBlockHeight)))
  {
    hide IsBuilt, IsDead, PaymentsProven, IncidentsHold, BooksInv, Recorded;
    var row := w.db.attempts[(e, k)];
    assert EventTidy(rules, w.db, e) && RowTidy(rules.client, row, w.db.events[e], k);
    hide Tidy, EventTidy, Numbered;
    RowKeeps(rules, w, e, k, row.(signature := Some(tx.signature), raw := Some(tx),
                                  lastValidBlockHeight := Some(tx.lastValidBlockHeight), status := SIGNED));
  }

  /** An attempt is closed when it was never sent, or cannot land any more. */
  lemma CloseKeeps(rules: Rules, w: World, e: string, k: nat, status: AttemptStatus)
    requires Sound(rules, w) && (e, k) in w.db.attempts && e in w.db.events && w.db.events[e].status != PAID
    requires IsClosed(status) && (status == EXPIRED ==> w.db.attempts[(e, k)].raw.Some?)
    requires var raw := w.db.attempts[(e, k)].raw;
             raw.Some? && raw.value in w.forwarded ==> IsDead(w.chain, raw.value)
    ensures Sound(rules, w.(db := WithAttemptStatus(w.db, e, k, status)))
  {
    hide IsBuilt, IsDead, PaymentsProven, IncidentsHold, BooksInv, Recorded;
    var row := w.db.attempts[(e, k)];
    assert EventTidy(rules, w.db, e) && RowTidy(rules.client, row, w.db.events[e], k);
    hide Tidy, EventTidy, Numbered;
    RowKeeps(rules, w, e, k, row.(status := status));
  }

  /** Every attempt of the event is closed. */
  ghost predicate AllClosed(db: Db, e: string) {
    forall k: nat :: (e, k) in db.attempts ==> IsClosed(db.attempts[(e, k)].status)
  }

  lemma StatusTidy(rules: Rules, db: Db, e: string, status: EventStatus)
    requires e in db.events && EventTidy(rules, db, e) && db.events[e].status != PAID && status != PAID
    requires status == PENDING ==> AllClosed(db, e)
    ensures var after := WithStatus(db, e, status);
            SameElsewhere(db, after, e) && EventTidy(rules, after, e)
  {}

  lemma StatusIncident(rules: Rules, db: Db, c: Chain, e: string, j: nat, namespace: Key)
    requires e in db.events && j < |c.landed| && IsIncident(rules, db, c.landed[j], e, namespace)
    ensures IncidentIfSaid(rules, WithStatus(db, e, INCIDENT), c, e)
  {
    hide Contradicts;
    assert IsIncident(rules, WithStatus(db, e, INCIDENT), c.landed[j], e, namespace);
  }

  /**
    An event's status may change to pending only when every attempt is closed,
    and to incident only on evidence that contradicts everything stored.
   */
  lemma StatusKeeps(rules: Rules, w: World, e: string, status: EventStatus)
    requires Sound(rules, w) && e in w.db.events && w.db.events[e].status != PAID && status != PAID
    requires status == PENDING ==> AllClosed(w.db, e)
    requires status == INCIDENT ==>
               exists j, namespace: Key :: 0 <= j < |w.chain.landed| && IsIncident(rules, w.db, w.chain.landed[j], e, namespace)
    ensures Sound(rules, w.(db := WithStatus(w.db, e, status)))
  {
    StatusTidy(rules, w.db, e, status);
    if status == INCIDENT {
      var j, namespace: Key :| 0 <= j < |w.chain.landed| && IsIncident(rules, w.db, w.chain.landed[j], e, namespace);
      StatusIncident(rules, w.db, w.chain, e, j, namespace);
    }
    hide EventTidy, SameElsewhere, Recorded, PaymentsProven, IncidentsHold, IsIncident, BooksInv, IsDead;
    WriteKeeps(rules, w, WithStatus(w.db, e, status), e);
  }

  /** Only what a signed row holds is sent. */
  lemma SendKeeps(rules: Rules, w: World, tx: Tx, e: string, k: nat)
    requires Sound(rules, w) && (e, k) in w.db.attempts
    requires w.db.attempts[(e, k)].raw == Some(tx) && w.db.attempts[(e, k)].status == SIGNED
    ensures Sound(rules, w.(forwarded := w.forwarded + {tx}))
  {
    hide IsDead, Tidy, PaymentsProven, IncidentsHold, BooksInv;
    assert Carries(w.db, w.chain, tx, e, k);
  }

  // ----- Payment -----

  /** Two records proven by transactions of one signature are for one event. */
  lemma OneSignatureOneEvent(client: Client, c: Chain, i: nat, j: nat, a: SettlementRecord, b: SettlementRecord,
                             p: Request, q: Request)
    requires ChainInv(client.env, c) && i < |c.landed| && j < |c.landed|
    requires Proves(client, c.landed[i], a, p) && Proves(client, c.landed[j], b, q) && a.signature == b.signature
    ensures p.eventId == q.eventId
  {
    hide NamesEvent, CreatesRecord, PaysExactly;
    assert i == j;
    OneEvent(client, c.landed[j].tx, p.eventId, q.eventId);
  }

  /** No settlement row has the event, nor the signature of a transaction that names it. */
  lemma NotYetSettled(rules: Rules, w: World, e: string, record: SettlementRecord, j: nat)
    requires Tidy(rules, w.db) && PaymentsProven(rules.client, w.db, w.chain) && ChainInv(rules.client.env, w.chain)
    requires e in w.db.events && w.db.events[e].status != PAID
    requires j < |w.chain.landed| && Proves(rules.client, w.chain.landed[j], record, w.db.events[e].request)
    ensures !HasSettlement(w.db.settlements, e, record.signature)
  {
    hide Proves, ChainInv, RowTidy, Numbered, StoredFor;
    forall i | 0 <= i < |w.db.settlements|
      ensures w.db.settlements[i].eventId != e && w.db.settlements[i].record.signature != record.signature
    {
      var row := w.db.settlements[i];
      assert RowProven(rules.client, w.db, w.chain, row);
      assert EventTidy(rules, w.db, e) && EventTidy(rules, w.db, row.eventId);
      var other := w.db.events[row.eventId].request;
      var j' :| 0 <= j' < |w.chain.landed| && Proves(rules.client, w.chain.landed[j'], row.record, other);
      if row.record.signature == record.signature {
        OneSignatureOneEvent(rules.client, w.chain, j', j, row.record, record, other, w.db.events[e].request);
      }
    }
  }

  lemma PaidRowsTidy(rules: Rules, db: Db, e: string, landed: Option<nat>, paid: Reconciliation)
    requires Tidy(rules, db) && e in db.events
    ensures var after := PaidRecorded(db, e, landed, paid);
            && SameElsewhere(db, after, e) && EventTidy(rules, after, e)
            && after.events[e] == db.events[e].(status := PAID)
            && forall k: nat :: (e, k) in db.attempts ==>
                 (e, k) in after.attempts && after.attempts[(e, k)].params == db.attempts[(e, k)].params
  {
    hide IsBuilt, WithSettlement, WithEntries, WithPools;
    var after := PaidRecorded(db, e, landed, paid);
    assert EventTidy(rules, db, e);
    assert Numbered(after, e, db.events[e].attempts) by {
      assert Numbered(db, e, db.events[e].attempts);
    }
    forall k: nat | (e, k) in after.attempts
      ensures RowTidy(rules.client, after.attempts[(e, k)], after.events[e], k)
    {
      assert RowTidy(rules.client, db.attempts[(e, k)], db.events[e], k);
    }
  }

  lemma PaidStillCarries(rules: Rules, w: World, e: string, landed: Option<nat>, paid: Reconciliation)
    requires e in w.db.events
    requires landed.Some? && (e, landed.value) in w.db.attempts ==> w.db.attempts[(e, landed.value)].raw.Some?
    ensures StillCarries(w.db, PaidRecorded(w.db, e, landed, paid), w.chain, w.forwarded, e)
  {}

  /** A payment is recorded on evidence that it was made, and the settlement row is never dropped. */
  lemma PayKeeps(rules: Rules, w: World, e: string, landed: Option<nat>, paid: Reconciliation, j: nat)
    requires Sound(rules, w) && ChainInv(rules.client.env, w.chain)
    requires e in w.db.events && w.db.events[e].status != PAID
    requires landed.Some? && (e, landed.value) in w.db.attempts ==> w.db.attempts[(e, landed.value)].raw.Some?
    requires IsBooking(paid) && paid.record.eventId == e
    requires paid.record.amountAtomic == w.db.events[e].request.amountAtomic && StoredFor(w.db, e, paid.record)
    requires TellsPayouts(paid.record.payouts, w.db.events[e].request, paid.record.amountAtomic * paid.record.scale,
                          w.db.events[e].beneficiaryIds)
    requires j < |w.chain.landed| && Proves(rules.client, w.chain.landed[j], paid.record, w.db.events[e].request)
    ensures Sound(rules, w.(db := PaidRecorded(w.db, e, landed, paid)))
    ensures PaidRecorded(w.db, e, landed, paid).settlements == w.db.settlements + [SettlementRow(e, paid.record)]
  {
    var db, after := w.db, PaidRecorded(w.db, e, landed, paid);
    NotYetSettled(rules, w, e, paid.record, j);
    PaymentKeepsBooks(db, e, landed, paid);
    PaidRowsTidy(rules, db, e, landed, paid);
    PaidStillCarries(rules, w, e, landed, paid);
    hide PaidRecorded, HasSettlement, IsBooking, EventTidy, StillCarries, IncidentsHold, Recorded, Tidy, Proves, BooksInv,
      ChainInv;
    TidyFrame(rules, db, after, e);
    RecordedFrame(db, after, w.chain, w.forwarded, e);
    IncidentsFrame(rules, db, after, w.chain, e);
    PaymentProven(rules, w, after, e, paid.record, j);
  }

  lemma PaymentProven(rules: Rules, w: World, after: Db, e: string, record: SettlementRecord, j: nat)
    requires PaymentsProven(rules.client, w.db, w.chain) && e in w.db.events && w.db.events[e].status != PAID
    requires SameElsewhere(w.db, after, e) && e in after.events && after.events[e] == w.db.events[e].(status := PAID)
    requires forall k: nat :: (e, k) in w.db.attempts ==>
               (e, k) in after.attempts && after.attempts[(e, k)].params == w.db.attempts[(e, k)].params
    requires after.settlements == w.db.settlements + [SettlementRow(e, record)]
    requires record.eventId == e && record.amountAtomic == w.db.events[e].request.amountAtomic && StoredFor(w.db, e, record)
    requires TellsPayouts(record.payouts, w.db.events[e].request, record.amountAtomic * record.scale,
                          w.db.events[e].beneficiaryIds)
    requires j < |w.chain.landed| && Proves(rules.client, w.chain.landed[j], record, w.db.events[e].request)
    ensures PaymentsProven(rules.client, after, w.chain)
  {
    hide Proves;
    forall i | 0 <= i < |after.settlements|
      ensures RowProven(rules.client, after, w.chain, after.settlements[i])
    {
      if i < |w.db.settlements| {
        RowProvenFrame(rules.client, w.db, after, w.chain, e, w.db.settlements[i]);
      } else if w.db.events[e].attempts != 0 {
        var k: nat :| (e, k) in w.db.attempts && w.db.attempts[(e, k)].params.namespace == record.namespace
                      && w.db.attempts[(e, k)].params.scale == record.scale;
        assert (e, k) in after.attempts;
      }
    }
    hide RowProven;
    forall f | f in after.events && after.events[f].status == PAID
      ensures exists i :: 0 <= i < |after.settlements| && after.settlements[i].eventId == f
    {
      if f == e {
        assert after.settlements[|w.db.settlements|].eventId == e;
      } else {
        var i :| 0 <= i < |w.db.settlements| && w.db.settlements[i].eventId == f;
        assert after.settlements[i].eventId == f;
      }
    }
  }
}

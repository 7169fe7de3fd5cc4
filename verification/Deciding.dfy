/** What the worker decides by, apart from how it finds it out. */
module Deciding {
  import opened Basics
  import opened Splits
  import opened Codec
  import opened Program
  import opened Accounting
  import opened Runs
  import opened Text
  import opened Evidence
  import opened Cluster
  import opened EvidenceLaws
  import opened Search
  import opened SearchLaws
  import opened Tables
  import opened Books
  import opened Stores
  import opened Networks
  import opened Protocol
  import opened ProtocolSteps

  /** What settling or resolving an event came to. */
  datatype Report = WAITING | RETRY | REFUSED | UNRESOLVED | Decided(status: EventStatus)

  /** The status an event has once the report is made. */
  function Told(report: Report): EventStatus {
    match report
    case WAITING => IN_FLIGHT
    case RETRY => PENDING
    case REFUSED => PENDING
    case UNRESOLVED => IN_FLIGHT
    case Decided(status) => status
  }

  /** A request and the parameters it was to be settled with. */
  datatype Stored = Stored(request: Request, params: Params)

  datatype Judged = Agrees(reconciliation: Reconciliation) | Differs(mismatch: bool)

  /** What an account at a record's address says: settled, not settled, or neither. */
  function ReadRecord(env: Env, account: Account, seed: Key): Try<bool> {
    if account.owner == SYSTEM_PROGRAM && account.data == [] then Done(false)
    else if account.owner == env.programId && |account.data| == RECORD_SIZE && account.data[0] == 1
            && account.data[1..33] == seed then Done(true)
    else Threw
  }

  /** A signed attempt that a node which withholds nothing would send again. */
  predicate MayLand(c: Chain, attempt: StoredAttempt) {
    && attempt.status == SIGNED && attempt.signature.Some?
    && LandingOf(c.landed, attempt.signature.value).None?
    && attempt.lastValidBlockHeight.Some? && c.height <= attempt.lastValidBlockHeight.value && attempt.raw.Some?
  }

  /** An attempt that was never signed, or that landed with an error. */
  predicate IsFailed(c: Chain, attempt: StoredAttempt) {
    || attempt.status == PREPARED
    || (attempt.status == SIGNED && attempt.signature.Some?
        && StatusIn(c, attempt.signature.value) == Some(Status(Finalized, true)))
  }

  /** The attempt's bytes were among what was sent, unchanged and without a preflight, and a node has them. */
  ghost predicate WasHanded(attempt: StoredAttempt, forwarded: set<Tx>, sent: seq<Sending>) {
    attempt.raw.Some? && attempt.raw.value in forwarded && Sending(attempt.raw.value, false) in sent
  }

  /** Of the first `n`, all that may land have been. */
  ghost predicate AllHanded(c: Chain, attempts: seq<StoredAttempt>, n: nat, forwarded: set<Tx>,
                            sent: seq<Sending>)
    requires n <= |attempts|
  {
    forall i :: 0 <= i < n && MayLand(c, attempts[i]) ==> WasHanded(attempts[i], forwarded, sent)
  }

  /** The bytes of every attempt of the event that may land were among what was sent. */
  ghost predicate AllResent(c: Chain, db: Db, e: string, forwarded: set<Tx>, sent: seq<Sending>) {
    forall k: nat :: (e, k) in db.attempts && MayLand(c, db.attempts[(e, k)]) ==>
      WasHanded(db.attempts[(e, k)], forwarded, sent)
  }

  lemma CheckedAreResent(db: Db, c: Chain, e: string, attempts: seq<StoredAttempt>, forwarded: set<Tx>, sent: seq<Sending>)
    requires ClosedFailed(db, c, e, attempts, |attempts|) && AllHanded(c, attempts, |attempts|, forwarded, sent)
    ensures AllResent(c, db, e, forwarded, sent)
  {
    hide IsFailed, WasHanded;
    forall k: nat | (e, k) in db.attempts && MayLand(c, db.attempts[(e, k)])
      ensures WasHanded(db.attempts[(e, k)], forwarded, sent)
    {
      assert db.attempts[(e, k)] == attempts[k - 1];
    }
  }

  lemma ResentSince(c: Chain, db: Db, e: string, forwarded: set<Tx>, sends: seq<Sending>, from: nat, since: nat)
    requires since <= from <= |sends| && AllResent(c, db, e, forwarded, sends[from..])
    ensures AllResent(c, db, e, forwarded, sends[since..])
  {
    hide MayLand;
    assert sends[since..] == sends[since..from] + sends[from..];
  }

  lemma OneMoreHanded(c: Chain, attempts: seq<StoredAttempt>, n: nat, before: set<Tx>, after: set<Tx>,
                      sent: seq<Sending>, sends: seq<Sending>, from: nat)
    requires n < |attempts| && before <= after && from <= |sent| && sent <= sends
    ensures AllHanded(c, attempts, n, before, sent[from..])
            && (MayLand(c, attempts[n]) ==> WasHanded(attempts[n], after, sends[|sent|..])) ==>
              AllHanded(c, attempts, n + 1, after, sends[from..])
  {
    hide MayLand;
    assert sends[from..] == sent[from..] + sends[|sent|..];
  }

  /** A tidy signed row may land exactly when its transaction can. */
  lemma MayLandIsCanLand(client: Client, c: Chain, row: StoredAttempt, event: StoredEvent, k: nat)
    requires RowTidy(client, row, event, k)
    ensures MayLand(c, row) <==> row.status == SIGNED && CanLand(c, row.raw.value)
  {
    hide IsBuilt;
  }

  // ----- What the loops keep -----

  /** Attempt `k` is not merely prepared, and if it is signed its transaction cannot land as the chain stands. */
  ghost predicate RowSpent(db: Db, c: Chain, e: string, k: nat)
    requires (e, k) in db.attempts
  {
    var row := db.attempts[(e, k)];
    row.status != PREPARED && (row.status == SIGNED && row.raw.Some? ==> !CanLand(c, row.raw.value))
  }

  ghost predicate Spent(db: Db, c: Chain, e: string, n: nat) {
    forall k: nat :: 1 <= k <= n && (e, k) in db.attempts ==> RowSpent(db, c, e, k)
  }

  lemma SpentLater(env: Env, db: Db, c: Chain, d: Chain, e: string, n: nat)
    requires ChainInv(env, d) && Later(env, c, d) && Spent(db, c, e, n)
    ensures Spent(db, d, e, n)
  {}

  /** One more attempt checked, and at most that one closed. */
  lemma SpentNext(before: Db, after: Db, c: Chain, e: string, k: nat)
    requires k > 0 && Spent(before, c, e, k - 1)
    requires after == before || after == WithAttemptStatus(before, e, k, FAILED)
    requires (e, k) in after.attempts && RowSpent(after, c, e, k)
    ensures Spent(after, c, e, k)
  {}

  /** The rows of the event are those of the snapshot, but for some of the first `n` that were closed. */
  ghost predicate ClosedSome(db: Db, e: string, snapshot: seq<StoredAttempt>, n: nat)
    requires n <= |snapshot|
  {
    && Numbered(db, e, |snapshot|)
    && forall k: nat :: 1 <= k <= |snapshot| ==>
         && (db.attempts[(e, k)] == snapshot[k - 1]
             || (k <= n && db.attempts[(e, k)] == snapshot[k - 1].(status := FAILED)))
  }

  lemma ClosedOneMore(before: Db, after: Db, e: string, snapshot: seq<StoredAttempt>, n: nat)
    requires n < |snapshot| && ClosedSome(before, e, snapshot, n)
    requires after == before || after == WithAttemptStatus(before, e, n + 1, FAILED)
    ensures ClosedSome(after, e, snapshot, n + 1) && Concerns(before, after, e) && after.events == before.events
  {}

  function FailedIf(c: Chain, checked: bool, row: StoredAttempt): StoredAttempt {
    if checked && IsFailed(c, row) then row.(status := FAILED) else row
  }

  /** Of the first `n` attempts of the snapshot just the failed ones are closed; nothing else has changed. */
  ghost predicate ClosedFailed(db: Db, c: Chain, e: string, snapshot: seq<StoredAttempt>, n: nat)
    requires n <= |snapshot|
  {
    && Numbered(db, e, |snapshot|)
    && forall k: nat :: 1 <= k <= |snapshot| ==> db.attempts[(e, k)] == FailedIf(c, k <= n, snapshot[k - 1])
  }

  lemma ClosedOneFailed(before: Db, after: Db, c: Chain, e: string, snapshot: seq<StoredAttempt>, n: nat)
    requires n < |snapshot| && ClosedFailed(before, c, e, snapshot, n)
    requires after == if IsFailed(c, snapshot[n]) then WithAttemptStatus(before, e, n + 1, FAILED) else before
    ensures ClosedFailed(after, c, e, snapshot, n + 1)
  {
    hide IsFailed;
    assert Numbered(after, e, |snapshot|);
  }

  /** The event's attempts are those it had, but for some that failed and are now closed. */
  ghost predicate OnlyFailedClosed(before: Db, after: Db, c: Chain, e: string) {
    forall k: nat ::
      && ((e, k) in after.attempts <==> (e, k) in before.attempts)
      && ((e, k) in before.attempts ==>
            || after.attempts[(e, k)] == before.attempts[(e, k)]
            || (after.attempts[(e, k)] == before.attempts[(e, k)].(status := FAILED) && IsFailed(c, before.attempts[(e, k)])))
  }

  lemma CheckedOnlyCloses(before: Db, after: Db, c: Chain, e: string, attempts: seq<StoredAttempt>)
    requires Numbered(before, e, |attempts|) && attempts == AttemptsOf(before, e, |attempts|)
    requires ClosedFailed(after, c, e, attempts, |attempts|)
    ensures OnlyFailedClosed(before, after, c, e)
  {
    hide IsFailed;
  }

  /** What failed stays failed. */
  lemma FailedStays(env: Env, c: Chain, d: Chain, attempt: StoredAttempt)
    requires ChainInv(env, d) && Later(env, c, d) && IsFailed(c, attempt)
    ensures IsFailed(d, attempt)
  {}

  lemma ClosedLater(env: Env, before: Db, after: Db, c: Chain, d: Chain, e: string)
    requires ChainInv(env, d) && Later(env, c, d) && OnlyFailedClosed(before, after, c, e)
    ensures OnlyFailedClosed(before, after, d, e)
  {
    hide IsFailed, ChainInv, Later;
    forall k: nat | (e, k) in before.attempts && IsFailed(c, before.attempts[(e, k)])
      ensures IsFailed(d, before.attempts[(e, k)])
    {
      FailedStays(env, c, d, before.attempts[(e, k)]);
    }
  }

  lemma ClosedTwice(first: Db, before: Db, after: Db, c: Chain, e: string)
    requires OnlyFailedClosed(first, before, c, e) && OnlyFailedClosed(before, after, c, e)
    ensures OnlyFailedClosed(first, after, c, e)
  {}

  /** Closing failed attempts changes nothing about which may land. */
  lemma MayLandAlike(before: Db, after: Db, c: Chain, e: string, k: nat)
    requires OnlyFailedClosed(before, after, c, e) && (e, k) in before.attempts
    ensures MayLand(c, before.attempts[(e, k)]) <==> MayLand(c, after.attempts[(e, k)])
  {}

  /** An attempt that may not land may not land later. */
  lemma MayLandNoMore(env: Env, c: Chain, d: Chain, attempt: StoredAttempt)
    requires Later(env, c, d) && !MayLand(c, attempt)
    ensures !MayLand(d, attempt)
  {
    if attempt.signature.Some? && LandingOf(c.landed, attempt.signature.value).Some? {
      var i := LandingOf(c.landed, attempt.signature.value).value;
      assert d.landed[i].tx.signature == attempt.signature.value;
    }
  }

  /** What an attempt was made of is never rewritten. */
  predicate KeepsRow(a: StoredAttempt, b: StoredAttempt) {
    && b.request == a.request && b.params == a.params && b.attempt == a.attempt
    && (a.raw.Some? ==> b.raw == a.raw && b.signature == a.signature)
  }

  /** Nor is what an event was asked to pay, and to whom. */
  predicate KeepsEvent(a: StoredEvent, b: StoredEvent) {
    b.eventId == a.eventId && b.request == a.request && b.beneficiaryIds == a.beneficiaryIds && b.attempts >= a.attempts
  }

  ghost predicate RowsKept(before: Db, after: Db, e: string) {
    forall k: nat :: (e, k) in before.attempts ==>
      (e, k) in after.attempts && KeepsRow(before.attempts[(e, k)], after.attempts[(e, k)])
  }

  /** The ledger tables only grow, by rows of the event. */
  ghost predicate LedgerKept(before: Db, after: Db, e: string) {
    && before.settlements <= after.settlements && before.entries <= after.entries && before.pools <= after.pools
    && (forall i :: |before.settlements| <= i < |after.settlements| ==> after.settlements[i].eventId == e)
    && (forall i :: |before.entries| <= i < |after.entries| ==> after.entries[i].eventId == e)
    && (forall i :: |before.pools| <= i < |after.pools| ==> after.pools[i].eventId == e)
  }

  /**
    A change about one event: nothing else moves, no event comes or goes, its
    attempts keep what they were made of, and no ledger row is lost.
   */
  ghost predicate Concerns(before: Db, after: Db, e: string) {
    && SameElsewhere(before, after, e) && RowsKept(before, after, e) && LedgerKept(before, after, e)
    && after.order == before.order && (e in after.events <==> e in before.events)
    && (e in before.events ==> KeepsEvent(before.events[e], after.events[e]))
  }

  lemma BytesKept(before: Db, after: Db, e: string, k: nat)
    requires Concerns(before, after, e) && (e, k) in before.attempts && before.attempts[(e, k)].raw.Some?
    ensures (e, k) in after.attempts && after.attempts[(e, k)].raw == before.attempts[(e, k)].raw
  {}

  /** But for the status of the event and its attempts, all that a report leaves behind is the rows of a payment. */
  ghost predicate Leaves(before: Db, after: Db, e: string, report: Report) {
    if report == Decided(PAID)
    then exists landed, paid :: after == PaidRecorded(before, e, landed, paid).(attempts := after.attempts)
    else after == WithStatus(before, e, Told(report)).(attempts := after.attempts)
  }

  lemma StatusTwice(db: Db, e: string, first: EventStatus, last: EventStatus)
    ensures WithStatus(WithStatus(db, e, first), e, last) == WithStatus(db, e, last)
  {}

  /** A payment recorded, but for the attempts. */
  lemma PaidSays(db: Db, e: string, landed: Option<nat>, paid: Reconciliation, attempts: map<AttemptKey, StoredAttempt>)
    ensures PaidRecorded(db, e, landed, paid).(attempts := attempts)
         == WithStatus(db, e, PAID).(attempts := attempts,
                                     settlements := WithSettlement(db.settlements, SettlementRow(e, paid.record)),
                                     entries := WithEntries(db.entries, e, paid.entries),
                                     pools := WithPools(db.pools, e, paid.pools))
  {
    hide WithSettlement, WithEntries, WithPools;
  }

  /** Attempts that change first make no difference to that. */
  lemma LeavesAlike(before: Db, middle: Db, after: Db, e: string, report: Report)
    requires middle == before.(attempts := middle.attempts) && Leaves(middle, after, e, report)
    ensures Leaves(before, after, e, report)
  {
    hide WithSettlement, WithEntries, WithPools, PaidRecorded;
    if report == Decided(PAID) {
      var landed, paid :| after == PaidRecorded(middle, e, landed, paid).(attempts := after.attempts);
      PaidSays(middle, e, landed, paid, after.attempts);
      PaidSays(before, e, landed, paid, after.attempts);
    }
  }

  /** Nor does the status the event had. */
  lemma LeavesAside(before: Db, middle: Db, after: Db, e: string, report: Report)
    requires middle == before || exists status :: middle == WithStatus(before, e, status)
    requires Leaves(middle, after, e, report)
    ensures Leaves(before, after, e, report)
  {
    hide WithSettlement, WithEntries, WithPools, PaidRecorded;
    if status :| middle == WithStatus(before, e, status) {
      StatusTwice(before, e, status, Told(report));
    }
    if report == Decided(PAID) {
      var landed, paid :| after == PaidRecorded(middle, e, landed, paid).(attempts := after.attempts);
      PaidSays(middle, e, landed, paid, after.attempts);
      PaidSays(before, e, landed, paid, after.attempts);
    }
  }

  lemma SameTwice(a: Db, b: Db, c: Db, e: string)
    requires Concerns(a, b, e) && Concerns(b, c, e)
    ensures Concerns(a, c, e)
  {}

  lemma SameAsBefore(db: Db, e: string)
    ensures Concerns(db, db, e)
  {}

  lemma SameLanding(env: Env, c: Chain, d: Chain, i: nat)
    requires Later(env, c, d) && i < |c.landed|
    ensures i < |d.landed| && d.landed[i] == c.landed[i]
  {}

  /** The transaction with the signature has landed, as `landing`. */
  ghost predicate IsLanded(c: Chain, landing: Landing, signature: string) {
    landing in c.landed && landing.tx.signature == signature
  }

  lemma LandedStays(env: Env, c: Chain, d: Chain, landing: Landing, signature: string)
    requires Later(env, c, d) && IsLanded(c, landing, signature)
    ensures IsLanded(d, landing, signature)
  {
    var i :| 0 <= i < |c.landed| && c.landed[i] == landing;
    assert d.landed[i] == landing;
  }

  lemma LandedOnce(env: Env, c: Chain, i: nat, landing: Landing, signature: string)
    requires ChainInv(env, c) && IsLanded(c, landing, signature)
    requires i < |c.landed| && c.landed[i].tx.signature == signature
    ensures c.landed[i] == landing
  {
    var j :| 0 <= j < |c.landed| && c.landed[j] == landing;
    assert i == j;
  }

  lemma StatusElsewhere(db: Db, e: string, status: EventStatus)
    requires e in db.events
    ensures Concerns(db, db, e) && Concerns(db, WithStatus(db, e, status), e)
    ensures WithStatus(db, e, status).events == db.events[e := db.events[e].(status := status)]
    ensures WithStatus(db, e, status).attempts == db.attempts
  {}

  lemma AttemptElsewhere(db: Db, e: string, k: nat, status: AttemptStatus)
    ensures Concerns(db, db, e) && Concerns(db, WithAttemptStatus(db, e, k, status), e)
    ensures WithAttemptStatus(db, e, k, status).events == db.events
  {}

  lemma AttemptOnly(db: Db, e: string, k: nat, status: AttemptStatus)
    ensures WithAttemptStatus(db, e, k, status) == db.(attempts := WithAttemptStatus(db, e, k, status).attempts)
  {}

  lemma SignedElsewhere(db: Db, e: string, k: nat, tx: Tx)
    requires (e, k) in db.attempts && db.attempts[(e, k)].status == PREPARED && db.attempts[(e, k)].raw.None?
    ensures var after := Signed(db, e, k, tx.signature, tx, tx.lastValidBlockHeight);
            && Concerns(db, db, e) && Concerns(db, after, e) && after.events == db.events
            && (e, k) in after.attempts && after.attempts[(e, k)].raw == Some(tx) && after.attempts[(e, k)].status == SIGNED
  {}

  lemma BegunRow(db: Db, e: string, request: Request, params: Params)
    requires e in db.events && (e, db.events[e].attempts + 1) !in db.attempts
    ensures var after, k := Begun(db, e, request, params), db.events[e].attempts + 1;
            && Concerns(db, after, e)
            && e in after.events && after.events[e] == db.events[e].(status := IN_FLIGHT, attempts := k)
            && (e, k) in after.attempts
            && after.attempts[(e, k)] == StoredAttempt(e, k, request, params, None, None, None, PREPARED)
  {}

  lemma PaidConcerns(db: Db, e: string, landed: Option<nat>, paid: Reconciliation)
    ensures Concerns(db, PaidRecorded(db, e, landed, paid), e)
  {
    EntriesStay(db.entries, e, paid.entries);
    PoolsStay(db.pools, e, paid.pools);
    hide HasSettlement, WithEntries, WithPools;
  }

  // ----- Deciding from the record's creating transaction -----

  /** Honest evidence of a transaction that landed with the signature was judged so. */
  ghost predicate JudgedOn(client: Client, c: Chain, signature: string, stored: Stored, ids: map<string, string>,
                           judged: Result<Reconciliation, Code>)
  {
    exists i, answer: RpcTransaction ::
      0 <= i < |c.landed| && IsJudged(client, c.landed[i], answer, signature, stored, ids, judged)
  }

  ghost predicate IsJudged(client: Client, landing: Landing, answer: RpcTransaction, signature: string, stored: Stored,
                           ids: map<string, string>, judged: Result<Reconciliation, Code>)
  {
    && landing.tx.signature == signature && Honest(client, answer, landing)
    && Judge(client, answer, signature, stored.request, stored.params.namespace, stored.params.scale, ids) == judged
  }

  lemma JudgedLater(client: Client, c: Chain, d: Chain, signature: string, stored: Stored, ids: map<string, string>,
                    judged: Result<Reconciliation, Code>)
    requires JudgedOn(client, c, signature, stored, ids, judged) && Later(client.env, c, d)
    ensures JudgedOn(client, d, signature, stored, ids, judged)
  {}

  /** Accepted on honest evidence: a booking, proven by the transaction it names. */
  lemma AcceptedIsProven(client: Client, c: Chain, signature: string, stored: Stored, ids: map<string, string>,
                         paid: Reconciliation) returns (j: nat)
    requires ClientValid(client) && ChainInv(client.env, c)
    requires forall j :: 0 <= j < |c.landed| ==>
               WellTyped(client, c.landed[j].tx.instructions) && NUL !in c.landed[j].tx.signature
    requires JudgedOn(client, c, signature, stored, ids, Ok(paid))
    ensures IsBooking(paid) && paid.record.eventId == stored.request.eventId
    ensures paid.record.amountAtomic == stored.request.amountAtomic
    ensures paid.record.namespace == stored.params.namespace && paid.record.scale == stored.params.scale
    ensures j < |c.landed| && Proves(client, c.landed[j], paid.record, stored.request)
    ensures TellsPayouts(paid.record.payouts, stored.request, paid.record.amountAtomic * paid.record.scale, ids)
  {
    var i, answer: RpcTransaction :|
      0 <= i < |c.landed| && IsJudged(client, c.landed[i], answer, signature, stored, ids, Ok(paid));
    j := i;
    var request, namespace, scale := stored.request, stored.params.namespace, stored.params.scale;
    var n := AcceptedMeansPaid(client, answer, c.landed[j], signature, request, namespace, scale, ids);
    AcceptedAgrees(client, answer, signature, request, namespace, scale, ids);
    ObservedSignature(client, answer, signature);
    JudgeObserves(client, answer, signature, request, namespace, scale, ids);
    var o := Observe(client, answer, signature).value;
    ReconciledIsBooking(client, o, request, namespace, scale, ids);
    ReconciledTellsPayouts(client, o, request, namespace, scale, ids);
    hide Judge, Observe, Reconcile, CreatesRecord, PaysExactly, NamesEvent, IsBooking, Honest, ChainInv, WellTyped,
      IsSignedBy, TellsPayouts;
    assert PaysExactly(client, c.landed[j], n, request, paid.record.namespace, paid.record.scale);
  }

  lemma ObservedSignature(client: Client, answer: RpcTransaction, signature: string)
    requires Observe(client, answer, signature).Ok?
    ensures Observe(client, answer, signature).value.signature == signature
  {}

  /** Refused with a mismatch on honest evidence of the transaction the finder found. */
  lemma MismatchContradicts(client: Client, c: Chain, k: nat, signature: string, stored: Stored, code: Code)
    requires ChainInv(client.env, c) && k < |c.landed| && c.landed[k].tx.signature == signature
    requires JudgedOn(client, c, signature, stored, map[], Err(code)) && IsMismatch(code)
    ensures Contradicts(client, c.landed[k], stored.request, stored.params)
  {
    hide Judge, Honest, IsMismatch;
    var i, answer: RpcTransaction :|
      0 <= i < |c.landed| && IsJudged(client, c.landed[i], answer, signature, stored, map[], Err(code));
    assert i == k;
  }

  // ----- One's own settlement -----

  /** The landed transaction is what the stored request was built into, and what it moved fits JSON numbers. */
  ghost predicate IsOwn(client: Client, stored: Stored, landing: Landing) {
    && IsBuilt(client, stored.request, stored.params, landing.tx)
    && landing.outcome.Some?
    && FitsJson(client, landing.before, stored.request, stored.params.namespace, stored.params.scale)
  }

  predicate NamesBeneficiaries(ids: map<string, string>) {
    forall name <- ids :: Trim(ids[name]) != ""
  }

  /** One's own settlement agrees with its stored request on every complete honest answer. */
  lemma OwnAgrees(client: Client, landing: Landing, own: Stored, answer: RpcTransaction, ids: map<string, string>)
    requires ClientValid(client) && landing.outcome == Execute(client.env, landing.before, landing.tx.instructions)
    requires IsOwn(client, own, landing) && Honest(client, answer, landing) && answer.blockTime.Some?
    requires NamesBeneficiaries(ids)
    ensures Judge(client, answer, landing.tx.signature, own.request, own.params.namespace, own.params.scale, ids).Ok?
  {
    OwnSettlementJudged(client, answer, landing, own.request, own.params.payer, own.params.authority,
                        own.params.namespace, own.params.scale, ids);
  }

  /** A settlement call writes a record that reads as settled. */
  lemma CallWritesRecord(env: Env, a: Accounts, metas: seq<Meta>, data: seq<byte>, namespace: Key, seed: Key)
    requires env.Valid() && Process(env, a, metas, data).Ok? && SettlesHere(metas, data, namespace, seed)
    ensures var account := At(Process(env, a, metas, data).value.accounts, RecordAddress(env, namespace, seed));
            account.owner == env.programId && exists amount: u64 :: account.data == RecordData(seed, amount)
  {
    hide Settled, TokensSettled, RecordAddress;
    match Unpack(data).value
    case SettleN(eventId, amount, bps) =>
      SplitIsFair(amount, bps);
      SettlementEffect(env, a, metas, eventId, amount, SharesOf(amount, bps).value);
    case SettleTokenN(eventId, amount, decimals, bps) =>
      SplitIsFair(amount, bps);
      TokenSettlementEffect(env, a, metas, eventId, amount, decimals, SharesOf(amount, bps).value);
  }

  /** A record once written reads as settled ever after. */
  lemma WrittenReads(env: Env, a: Accounts, b: Accounts, record: Key, seed: Key)
    requires Evolves(env, a, b) && Owned(env, a, record)
    requires exists amount: u64 :: At(a, record).data == RecordData(seed, amount)
    ensures ReadRecord(env, At(b, record), seed) == Done(true)
  {
    var amount: u64 :| At(a, record).data == RecordData(seed, amount);
    assert RecordData(seed, amount)[0] == 1;
    assert RecordData(seed, amount)[1..33] == seed;
  }

  /** Instruction `i` wrote the record, and nothing after it in the transaction undid that. */
  lemma WrittenWithin(env: Env, landing: Landing, i: nat, namespace: Key, seed: Key) returns (after: Accounts)
    requires env.Valid() && Inv(env, landing.before) && LegalInstructions(env, landing.before, landing.tx.instructions)
    requires landing.outcome == Execute(env, landing.before, landing.tx.instructions) && landing.outcome.Some?
    requires i < |landing.tx.instructions| && landing.tx.instructions[i].Call?
    requires SettlesHere(landing.tx.instructions[i].metas, landing.tx.instructions[i].data, namespace, seed)
    ensures Evolves(env, after, landing.outcome.value.accounts) && Owned(env, after, RecordAddress(env, namespace, seed))
    ensures exists amount: u64 :: At(after, RecordAddress(env, namespace, seed)).data == RecordData(seed, amount)
  {
    hide Inv, LegalInstructions, SettlesHere, Evolves, RecordData, RecordAddress;
    var instructions := landing.tx.instructions;
    EvolvesWithin(env, landing.before, instructions, i + 1);
    ExecutePrefix(env, landing.before, instructions, i);
    assert instructions[..i + 1][..i] == instructions[..i];
    var before := Execute(env, landing.before, instructions[..i]).value.accounts;
    CallWritesRecord(env, before, instructions[i].metas, instructions[i].data, namespace, seed);
    after := Execute(env, landing.before, instructions[..i + 1]).value.accounts;
    assert after == Process(env, before, instructions[i].metas, instructions[i].data).value.accounts;
  }

  /** The record of a settlement that landed at top level reads as settled, then and ever after. */
  lemma SettledRecordReads(client: Client, c: Chain, j: nat, namespace: Key, seed: Key)
    requires ClientValid(client) && ChainInv(client.env, c) && j < |c.landed| && c.landed[j].outcome.Some?
    requires SettlesAtTop(c.landed[j].tx.instructions, namespace, seed)
    ensures ReadRecord(client.env, At(c.accounts, RecordAddress(client.env, namespace, seed)), seed) == Done(true)
  {
    hide Inv, LegalInstructions, SettlesHere, Evolves, RecordData, RecordAddress, Execute, ReadRecord;
    var env, landing := client.env, c.landed[j];
    var instructions := landing.tx.instructions;
    var i :| 0 <= i < |instructions| && instructions[i].Call?
             && SettlesHere(instructions[i].metas, instructions[i].data, namespace, seed);
    var after := WrittenWithin(env, landing, i, namespace, seed);
    EvolvesTransitive(env, after, landing.outcome.value.accounts, c.accounts);
    WrittenReads(env, after, c.accounts, RecordAddress(env, namespace, seed), seed);
  }

  /** Other seeds derive the record's address too. */
  ghost predicate HasCollision(env: Env, namespace: Key, seed: Key) {
    exists seeds: seq<byte> :: seeds != RecordSeeds(namespace, seed) && env.find(seeds) == RecordAddress(env, namespace, seed)
  }

  /**
    On any lawful chain a record reads as missing exactly when there is none,
    and as settled when there is, short of a collision.
   */
  lemma RecordReadsTruly(client: Client, c: Chain, namespace: Key, seed: Key)
    requires ClientValid(client) && ChainInv(client.env, c)
    ensures var read := ReadRecord(client.env, At(c.accounts, RecordAddress(client.env, namespace, seed)), seed);
            && (read == Done(false) <==> !RecordExists(client.env, c, namespace, seed))
            && (RecordExists(client.env, c, namespace, seed) ==>
                  read == Done(true) || HasCollision(client.env, namespace, seed))
  {
    var env, record := client.env, RecordAddress(client.env, namespace, seed);
    assert IsDerived(env, record);
    var data := At(c.accounts, record).data;
    hide Execute, LegalInstructions, Evolves;
    if RecordExists(env, c, namespace, seed) {
      assert WellFormed(env, c.accounts, record);
      if IsNamespace(env, c.accounts, record) {
        SeedsAreDistinct(namespace, seed, CreatorOf(data), IdOf(data));
        assert env.find(NamespaceSeeds(CreatorOf(data), IdOf(data))) == record;
      } else {
        var other: Key :| IsRecordOf(env, c.accounts, record, other);
        SeedsAreDistinct(other, data[1..33], namespace, seed);
        assert env.find(RecordSeeds(other, data[1..33])) == record;
      }
    }
  }

  lemma DifferentProducts(a: int, s: int, t: int)
    requires a > 0 && s != t
    ensures a * s != a * t
    decreases a
  {}

  /**
    Evidence agrees with at most one scale and namespace per request, and the
    rows it yields are the same whichever stored attempt they came from.
   */
  lemma RowsDoNotDependOnAttempt(client: Client, answer: RpcTransaction, signature: string, request: Request,
                                 a: Params, b: Params, ids: map<string, string>)
    requires Judge(client, answer, signature, request, a.namespace, a.scale, ids).Ok?
    requires Judge(client, answer, signature, request, b.namespace, b.scale, ids).Ok?
    ensures a.namespace == b.namespace && a.scale == b.scale
    ensures Judge(client, answer, signature, request, a.namespace, a.scale, ids)
         == Judge(client, answer, signature, request, b.namespace, b.scale, ids)
  {
    AcceptedAgrees(client, answer, signature, request, a.namespace, a.scale, ids);
    AcceptedAgrees(client, answer, signature, request, b.namespace, b.scale, ids);
    AcceptedIsPositive(client, answer, signature, request, a.namespace, a.scale, ids);
    hide Judge, Observe;
    if a.scale != b.scale {
      DifferentProducts(request.amountAtomic, a.scale, b.scale);
    }
  }

  lemma AcceptedIsPositive(client: Client, answer: RpcTransaction, signature: string, request: Request, namespace: Key,
                           scale: int, ids: map<string, string>)
    requires Judge(client, answer, signature, request, namespace, scale, ids).Ok?
    ensures request.amountAtomic > 0 && answer.blockTime.Some?
  {
    hide FindSettlement, MemoOf, SystemTransfers, GroupAt, DecodeSettleNData, Sort, ExpectedKeys, ObservedKeys, Base58,
      MemoMatches, PayoutLines;
  }

  // ----- What there is to know -----

  /** How a stored request fares against a landed transaction, told in full. */
  function TruthOf(client: Client, landing: Landing, stored: Stored, ids: map<string, string>): Result<Reconciliation, Code> {
    Judge(client, Rendered(client, landing, PLAIN), landing.tx.signature, stored.request, stored.params.namespace,
          stored.params.scale, ids)
  }

  function Judgement(truth: Result<Reconciliation, Code>): Judged {
    match truth
    case Ok(reconciliation) => Agrees(reconciliation)
    case Err(code) => Differs(IsMismatch(code))
  }

  predicate AgreesWith(client: Client, landing: Landing, stored: Stored) {
    TruthOf(client, landing, stored, map[]).Ok?
  }

  predicate MismatchesWith(client: Client, landing: Landing, stored: Stored) {
    var truth := TruthOf(client, landing, stored, map[]);
    truth.Err? && IsMismatch(truth.error)
  }

  /** Two full answers about one transaction are observed alike, but for their slot and time. */
  lemma ObservedFully(client: Client, a: RpcTransaction, b: RpcTransaction, signature: string)
    requires a.succeeded == b.succeeded && signature in a.signatures && signature in b.signatures
    requires a.blockTime.Some? && b.blockTime.Some? && a.instructions == b.instructions
    requires a.succeeded ==> a.inner == b.inner
    ensures Observe(client, b, signature) == match Observe(client, a, signature)
                                             case Ok(o) => Ok(o.(slot := b.slot, blockTime := b.blockTime.value))
                                             case Err(code) => Err(code)
  {
    hide FindSettlement, MemoOf, SystemTransfers, GroupAt, DecodeSettleNData;
  }

  lemma TimesDoNotMatter(client: Client, o: Observation, slot: nat, blockTime: int, request: Request, namespace: Key,
                         scale: int, ids: map<string, string>)
    ensures Reconcile(client, o.(slot := slot, blockTime := blockTime), request, namespace, scale, ids)
         == Reconcile(client, o, request, namespace, scale, ids)
  {
    hide Sort, ExpectedKeys, ObservedKeys, Base58, MemoMatches, RequestValid, PayoutLines, EntriesOf, PoolsOf, Texts,
      SharesOf;
  }

  /** Every full and honest answer leads to the same judgement, whichever node gave it. */
  lemma TruthTold(client: Client, landing: Landing, answer: RpcTransaction, stored: Stored, ids: map<string, string>)
    requires Honest(client, answer, landing) && answer.blockTime.Some?
    ensures Judge(client, answer, landing.tx.signature, stored.request, stored.params.namespace, stored.params.scale, ids)
         == TruthOf(client, landing, stored, ids)
  {
    var signature, plain := landing.tx.signature, Rendered(client, landing, PLAIN);
    HonestSays(client, answer, landing);
    HonestSays(client, plain, landing);
    hide Honest, Observe, Reconcile;
    ObservedFully(client, plain, answer, signature);
    if Observe(client, plain, signature).Ok? {
      TimesDoNotMatter(client, Observe(client, plain, signature).value, answer.slot, answer.blockTime.value, stored.request,
                       stored.params.namespace, stored.params.scale, ids);
    }
  }

  /** A transaction contradicts a request on some honest answer exactly when it does on every full one. */
  lemma ContradictedInTruth(client: Client, landing: Landing, stored: Stored)
    ensures Contradicts(client, landing, stored.request, stored.params) <==> MismatchesWith(client, landing, stored)
  {
    hide Judge, Honest, IsMismatch;
    var namespace, scale := stored.params.namespace, stored.params.scale;
    if Contradicts(client, landing, stored.request, stored.params) {
      var answer, signature :|
        Honest(client, answer, landing)
        && var judged := Judge(client, answer, signature, stored.request, namespace, scale, map[]);
           judged.Err? && IsMismatch(judged.error);
      MismatchSees(client, answer, signature, stored.request, namespace, scale);
      HonestSays(client, answer, landing);
      JudgedAlike(client, answer, signature, landing.tx.signature, stored.request, namespace, scale);
      TruthTold(client, landing, answer, stored, map[]);
    }
  }

  /** Beneficiary ids only label the rows: they change the judgement only by being empty. */
  lemma IdsOnlyLabel(client: Client, landing: Landing, stored: Stored, ids: map<string, string>)
    ensures TruthOf(client, landing, stored, ids).Ok? <==> AgreesWith(client, landing, stored) && NamesBeneficiaries(ids)
  {
    hide Observe, Sort, ExpectedKeys, ObservedKeys, Base58, MemoMatches, RequestValid, PayoutLines, EntriesOf, PoolsOf,
      Texts, SharesOf, Trim, Rendered;
  }

  /** One's own settlement agrees with its stored request. */
  lemma OwnAgreesWith(client: Client, landing: Landing, own: Stored)
    requires ClientValid(client) && landing.outcome == Execute(client.env, landing.before, landing.tx.instructions)
    requires IsOwn(client, own, landing)
    ensures AgreesWith(client, landing, own)
  {
    OwnAgrees(client, landing, own, Rendered(client, landing, PLAIN), map[]);
  }

  // ----- What is chosen -----

  /** The event is to be settled as this: as a stored attempt, or if there is none, under the current parameters. */
  ghost predicate IsRequest(db: Db, current: Params, e: string, stored: Stored)
    requires e in db.events
  {
    && stored.request == db.events[e].request
    && ((exists k: nat :: (e, k) in db.attempts && StoredOf(db.attempts[(e, k)]) == stored)
        || (db.events[e].attempts == 0 && stored.params == current))
  }

  /**
    What the event comes to, its creating transaction being `landing`: paid if it
    agrees with a stored request, an incident if it mismatches every one, and
    otherwise for a person to compare.
   */
  ghost predicate Chosen(client: Client, current: Params, db: Db, e: string, landing: Landing, r: Try<Report>)
    requires e in db.events
  {
    && ((exists stored :: IsRequest(db, current, e, stored) && AgreesWith(client, landing, stored)) ==>
          r == Done(if NamesBeneficiaries(db.events[e].beneficiaryIds) then Decided(PAID) else UNRESOLVED))
    && ((forall stored :: IsRequest(db, current, e, stored) ==> MismatchesWith(client, landing, stored)) ==>
          r == Done(Decided(INCIDENT)))
    && ((forall stored :: IsRequest(db, current, e, stored) ==> !AgreesWith(client, landing, stored))
        && (exists stored :: IsRequest(db, current, e, stored) && !MismatchesWith(client, landing, stored)) ==>
          r == Done(UNRESOLVED))
  }

  /** Closing attempts does not change what the event is to be settled as. */
  lemma SameRequests(before: Db, after: Db, current: Params, e: string, n: nat)
    requires e in before.events && Concerns(before, after, e) && SameButStatus(after, before, e)
    requires Numbered(before, e, n) && Numbered(after, e, n)
    ensures forall stored :: IsRequest(before, current, e, stored) <==> IsRequest(after, current, e, stored)
  {
    forall k: nat | (e, k) in after.attempts
      ensures (e, k) in before.attempts && StoredOf(before.attempts[(e, k)]) == StoredOf(after.attempts[(e, k)])
    {}
  }

  /** The event has the same attempts, to the letter. */
  ghost predicate SameAttempts(before: Db, after: Db, e: string) {
    forall k: nat ::
      && ((e, k) in after.attempts <==> (e, k) in before.attempts)
      && ((e, k) in before.attempts ==> after.attempts[(e, k)] == before.attempts[(e, k)])
  }

  lemma RequestsAlike(before: Db, after: Db, c: Chain, current: Params, e: string)
    requires e in before.events && SameButStatus(after, before, e) && OnlyFailedClosed(before, after, c, e)
    ensures forall stored :: IsRequest(before, current, e, stored) <==> IsRequest(after, current, e, stored)
  {
    hide IsFailed;
    forall k: nat | (e, k) in before.attempts
      ensures StoredOf(before.attempts[(e, k)]) == StoredOf(after.attempts[(e, k)])
    {}
  }

  lemma RequestsAside(before: Db, after: Db, current: Params, e: string)
    requires e in before.events && SameButStatus(after, before, e) && SameAttempts(before, after, e)
    ensures forall stored :: IsRequest(before, current, e, stored) <==> IsRequest(after, current, e, stored)
  {}

  /** How the first `n` requests fare: the first that agrees, and whether all mismatch. */
  ghost predicate Tallied(client: Client, landing: Landing, requests: seq<Stored>, n: nat, matched: Option<nat>,
                          mismatched: bool)
    requires n <= |requests|
  {
    && (matched.Some? ==> matched.value < n && AgreesWith(client, landing, requests[matched.value])
                          && forall i :: 0 <= i < matched.value ==> !AgreesWith(client, landing, requests[i]))
    && (matched.None? ==> forall i :: 0 <= i < n ==> !AgreesWith(client, landing, requests[i]))
    && (mismatched <==> forall i :: 0 <= i < n ==> MismatchesWith(client, landing, requests[i]))
  }

  lemma TalliedNext(client: Client, landing: Landing, requests: seq<Stored>, i: nat, matched: Option<nat>, mismatched: bool)
    requires i < |requests| && Tallied(client, landing, requests, i, matched, mismatched)
    ensures var judged := Judgement(TruthOf(client, landing, requests[i], map[]));
            Tallied(client, landing, requests, i + 1,
                    if matched.None? && judged.Agrees? then Some(i) else matched, mismatched && judged == Differs(true))
  {
    hide TruthOf, IsMismatch;
  }

  ghost predicate AllMismatch(client: Client, landing: Landing, requests: seq<Stored>) {
    forall i :: 0 <= i < |requests| ==> MismatchesWith(client, landing, requests[i])
  }

  /** What a full tally says. */
  lemma TalliedSays(client: Client, landing: Landing, requests: seq<Stored>, matched: Option<nat>, mismatched: bool)
    requires Tallied(client, landing, requests, |requests|, matched, mismatched)
    ensures matched.Some? ==> matched.value < |requests| && AgreesWith(client, landing, requests[matched.value])
    ensures mismatched <==> AllMismatch(client, landing, requests)
  {
    hide TruthOf, IsMismatch;
  }

  /** The requests listed are the event's, so what is tallied of them decides. */
  lemma TalliedDecides(client: Client, current: Params, db: Db, e: string, landing: Landing, requests: seq<Stored>,
                       matched: Option<nat>, mismatched: bool, r: Try<Report>)
    requires e in db.events && Tallied(client, landing, requests, |requests|, matched, mismatched) && requests != []
    requires forall stored :: IsRequest(db, current, e, stored) <==> stored in requests
    requires r == Done(if matched.Some?
                       then if NamesBeneficiaries(db.events[e].beneficiaryIds) then Decided(PAID) else UNRESOLVED
                       else if mismatched then Decided(INCIDENT) else UNRESOLVED)
    ensures Chosen(client, current, db, e, landing, r)
  {
    hide TruthOf, IsMismatch, IsRequest, NamesBeneficiaries;
    if stored :| IsRequest(db, current, e, stored) && AgreesWith(client, landing, stored) {
      assert stored in requests;
    }
    if matched.Some? {
      assert requests[matched.value] in requests;
    }
    if forall stored :: IsRequest(db, current, e, stored) ==> MismatchesWith(client, landing, stored) {
      forall i | 0 <= i < |requests|
        ensures MismatchesWith(client, landing, requests[i])
      {
        assert requests[i] in requests;
      }
    }
  }

  // ----- What each provider told -----

  /** Since the first `from` tellings, the provider told of a transaction that was judged so. */
  ghost predicate ToldSo(client: Client, told: seq<Telling>, from: nat, provider: Provider, signature: string,
                         stored: Stored, ids: map<string, string>, judged: Result<Reconciliation, Code>)
  {
    exists i :: from <= i < |told| && told[i].provider == provider && told[i].signature == signature
                && Judge(client, told[i].answer, signature, stored.request, stored.params.namespace, stored.params.scale, ids)
                   == judged
  }

  /** It told of one that mismatches the stored request. */
  ghost predicate ToldMismatch(client: Client, told: seq<Telling>, from: nat, provider: Provider, signature: string,
                               stored: Stored)
  {
    exists code :: IsMismatch(code) && ToldSo(client, told, from, provider, signature, stored, map[], Err(code))
  }

  /** It told of one that agrees with it. */
  ghost predicate ToldAgreement(client: Client, told: seq<Telling>, from: nat, provider: Provider, signature: string,
                                stored: Stored)
  {
    exists paid :: ToldSo(client, told, from, provider, signature, stored, map[], Ok(paid))
  }

  lemma JustTold(client: Client, told: seq<Telling>, from: nat, provider: Provider, signature: string,
                 stored: Stored, ids: map<string, string>, answer: RpcTransaction)
    requires from < |told| && told[|told| - 1] == Telling(provider, signature, answer)
    ensures ToldSo(client, told, from, provider, signature, stored, ids,
                   Judge(client, answer, signature, stored.request, stored.params.namespace, stored.params.scale, ids))
  {
    hide Judge;
  }

  lemma StillTold(client: Client, told: seq<Telling>, more: seq<Telling>, from: nat, since: nat, provider: Provider,
                  signature: string, stored: Stored)
    requires told <= more && since <= from
    ensures ToldMismatch(client, told, from, provider, signature, stored) ==>
              ToldMismatch(client, more, since, provider, signature, stored)
    ensures ToldAgreement(client, told, from, provider, signature, stored) ==>
              ToldAgreement(client, more, since, provider, signature, stored)
    ensures forall ids, judged ::
              ToldSo(client, told, from, provider, signature, stored, ids, judged) ==>
              ToldSo(client, more, since, provider, signature, stored, ids, judged)
  {
    hide Judge, IsMismatch;
    forall ids, judged | ToldSo(client, told, from, provider, signature, stored, ids, judged)
      ensures ToldSo(client, more, since, provider, signature, stored, ids, judged)
    {
      var i :| from <= i < |told| && told[i].provider == provider && told[i].signature == signature
               && Judge(client, told[i].answer, signature, stored.request, stored.params.namespace, stored.params.scale, ids)
                  == judged;
      assert more[i] == told[i];
    }
  }

  /** It told of mismatches with the first `n` requests. */
  ghost predicate ToldMismatches(client: Client, told: seq<Telling>, from: nat, provider: Provider, signature: string,
                                 requests: seq<Stored>, n: nat)
    requires n <= |requests|
  {
    forall i :: 0 <= i < n ==> ToldMismatch(client, told, from, provider, signature, requests[i])
  }

  lemma StillToldAll(client: Client, told: seq<Telling>, more: seq<Telling>, from: nat, since: nat, provider: Provider,
                     signature: string, requests: seq<Stored>, n: nat)
    requires told <= more && since <= from && n <= |requests|
    requires ToldMismatches(client, told, from, provider, signature, requests, n)
    ensures ToldMismatches(client, more, since, provider, signature, requests, n)
  {
    hide ToldMismatch, ToldAgreement, ToldSo;
    forall i | 0 <= i < n
      ensures ToldMismatch(client, more, since, provider, signature, requests[i])
    {
      StillTold(client, told, more, from, since, provider, signature, requests[i]);
    }
  }

  /** Each provider there is told of what mismatches everything the event was to be settled as. */
  ghost predicate AccusedBy(client: Client, told: seq<Telling>, from: nat, second: bool, signature: string, current: Params,
                            db: Db, e: string)
    requires e in db.events
  {
    forall stored :: IsRequest(db, current, e, stored) ==>
      && ToldMismatch(client, told, from, Primary, signature, stored)
      && (second ==> ToldMismatch(client, told, from, Second, signature, stored))
  }

  /** Each provider there is told of what agrees with something the event was to be settled as. */
  ghost predicate ConfirmedBy(client: Client, told: seq<Telling>, from: nat, second: bool, signature: string, current: Params,
                              db: Db, e: string)
    requires e in db.events
  {
    exists stored :: IsRequest(db, current, e, stored)
      && ToldAgreement(client, told, from, Primary, signature, stored)
      && (second ==> ToldAgreement(client, told, from, Second, signature, stored))
  }

  lemma ListedAccused(client: Client, told: seq<Telling>, from: nat, second: bool, signature: string, current: Params,
                      before: Db, after: Db, e: string, requests: seq<Stored>)
    requires e in before.events && SameButStatus(after, before, e) && after.attempts == before.attempts
    requires forall stored :: IsRequest(before, current, e, stored) <==> stored in requests
    requires ToldMismatches(client, told, from, Primary, signature, requests, |requests|)
    requires second ==> ToldMismatches(client, told, from, Second, signature, requests, |requests|)
    ensures AccusedBy(client, told, from, second, signature, current, after, e)
  {
    hide ToldMismatch;
    RequestsAside(before, after, current, e);
    forall stored | IsRequest(after, current, e, stored)
      ensures ToldMismatch(client, told, from, Primary, signature, stored)
      ensures second ==> ToldMismatch(client, told, from, Second, signature, stored)
    {
      assert stored in requests;
      var i :| 0 <= i < |requests| && requests[i] == stored;
    }
  }

  lemma StoredConfirmed(client: Client, told: seq<Telling>, from: nat, second: bool, signature: string, current: Params,
                        before: Db, after: Db, e: string, stored: Stored)
    requires e in before.events && SameButStatus(after, before, e) && Concerns(before, after, e)
    requires IsRequest(before, current, e, stored) && ToldAgreement(client, told, from, Primary, signature, stored)
    requires second ==> ToldAgreement(client, told, from, Second, signature, stored)
    ensures ConfirmedBy(client, told, from, second, signature, current, after, e)
  {
    hide ToldAgreement, LedgerKept, SameElsewhere;
    assert IsRequest(after, current, e, stored);
  }

  lemma ToldBefore(client: Client, told: seq<Telling>, from: nat, since: nat, second: bool, signature: string,
                   current: Params, db: Db, e: string)
    requires e in db.events && since <= from
    ensures AccusedBy(client, told, from, second, signature, current, db, e) ==>
              AccusedBy(client, told, since, second, signature, current, db, e)
    ensures ConfirmedBy(client, told, from, second, signature, current, db, e) ==>
              ConfirmedBy(client, told, since, second, signature, current, db, e)
  {
    hide ToldMismatch, ToldAgreement, IsRequest;
    forall stored: Stored, provider: Provider
      ensures ToldMismatch(client, told, from, provider, signature, stored) ==>
                ToldMismatch(client, told, since, provider, signature, stored)
      ensures ToldAgreement(client, told, from, provider, signature, stored) ==>
                ToldAgreement(client, told, since, provider, signature, stored)
    {
      StillTold(client, told, told, from, since, provider, signature, stored);
    }
  }

  // ----- Comparing every stored request -----

  /** Honest evidence mismatches the stored request. */
  ghost predicate IsDifferent(client: Client, c: Chain, signature: string, stored: Stored, ids: map<string, string>) {
    exists code :: IsMismatch(code) && JudgedOn(client, c, signature, stored, ids, Err(code))
  }

  lemma Differing(client: Client, c: Chain, signature: string, stored: Stored, ids: map<string, string>, code: Code)
    requires JudgedOn(client, c, signature, stored, ids, Err(code))
    ensures IsMismatch(code) ==> IsDifferent(client, c, signature, stored, ids)
  {}

  /** Honest evidence agrees with the stored request. */
  ghost predicate IsAgreed(client: Client, c: Chain, signature: string, stored: Stored) {
    exists paid :: JudgedOn(client, c, signature, stored, map[], Ok(paid))
  }

  lemma NowAgreed(client: Client, c: Chain, signature: string, stored: Stored, paid: Reconciliation)
    requires JudgedOn(client, c, signature, stored, map[], Ok(paid))
    ensures IsAgreed(client, c, signature, stored)
  {}

  /** The first `n` requests all mismatch. */
  ghost predicate AllDiffer(client: Client, c: Chain, signature: string, requests: seq<Stored>, n: nat)
    requires n <= |requests|
  {
    forall i :: 0 <= i < n ==> IsDifferent(client, c, signature, requests[i], map[])
  }

  lemma NextDiffers(client: Client, c: Chain, signature: string, requests: seq<Stored>, i: nat)
    requires i < |requests| && IsDifferent(client, c, signature, requests[i], map[])
    ensures AllDiffer(client, c, signature, requests, i) ==> AllDiffer(client, c, signature, requests, i + 1)
  {
    hide IsDifferent;
  }

  lemma NoneYet(client: Client, c: Chain, landing: Landing, signature: string, requests: seq<Stored>)
    ensures AllDiffer(client, c, signature, requests, 0) && Tallied(client, landing, requests, 0, None, true)
  {}

  /** What was found of the first `n` requests on an earlier chain is so on a later one. */
  ghost predicate FoundLater(client: Client, c: Chain, d: Chain, signature: string, requests: seq<Stored>, n: nat)
    requires n <= |requests|
  {
    forall i :: 0 <= i < n ==>
      && (IsDifferent(client, c, signature, requests[i], map[]) ==> IsDifferent(client, d, signature, requests[i], map[]))
      && (IsAgreed(client, c, signature, requests[i]) ==> IsAgreed(client, d, signature, requests[i]))
  }

  lemma RequestsLater(client: Client, c: Chain, d: Chain, signature: string, requests: seq<Stored>, n: nat)
    requires Later(client.env, c, d) && n <= |requests|
    ensures FoundLater(client, c, d, signature, requests, n)
  {}

  lemma StillFoundBy(client: Client, c: Chain, d: Chain, signature: string, requests: seq<Stored>, n: nat, m: Option<nat>)
    requires n <= |requests| && FoundLater(client, c, d, signature, requests, |requests|)
    ensures AllDiffer(client, c, signature, requests, n) ==> AllDiffer(client, d, signature, requests, n)
    ensures m.Some? && m.value < |requests| && IsAgreed(client, c, signature, requests[m.value]) ==>
              IsAgreed(client, d, signature, requests[m.value])
  {}

  // ----- Which requests those are -----

  function StoredOf(attempt: StoredAttempt): Stored {
    Stored(attempt.request, attempt.params)
  }

  /** Each request once, none but those stored, and every one of them. */
  ghost predicate AreDistinct(requests: seq<Stored>, attempts: seq<StoredAttempt>) {
    && (forall i, j :: 0 <= i < j < |requests| ==> requests[i] != requests[j])
    && (forall i :: 0 <= i < |requests| ==> IsAmong(requests[i], attempts))
    && forall k :: 0 <= k < |attempts| ==> StoredOf(attempts[k]) in requests
  }

  ghost predicate IsAmong(stored: Stored, attempts: seq<StoredAttempt>) {
    exists k :: 0 <= k < |attempts| && stored == StoredOf(attempts[k])
  }

  /** One entry per distinct stored request. */
  method DistinctRequests(attempts: seq<StoredAttempt>) returns (requests: seq<Stored>)
    ensures AreDistinct(requests, attempts)
  {
    requests := [];
    for i := 0 to |attempts|
      invariant forall j, k :: 0 <= j < k < |requests| ==> requests[j] != requests[k]
      invariant forall j :: 0 <= j < |requests| ==> IsAmong(requests[j], attempts)
      invariant forall k :: 0 <= k < i ==> StoredOf(attempts[k]) in requests
    {
      if StoredOf(attempts[i]) !in requests {
        requests := requests + [StoredOf(attempts[i])];
      }
    }
  }

  /** Attempt `k` is the last of the list with the signature. */
  ghost predicate IsLastSignedAs(attempts: seq<StoredAttempt>, signature: string, k: nat) {
    exists i :: 0 <= i < |attempts| && attempts[i].signature == Some(signature) && attempts[i].attempt == k
                && forall j :: i < j < |attempts| ==> attempts[j].signature != Some(signature)
  }

  /** The last attempt with the signature. */
  function LandedAttempt(attempts: seq<StoredAttempt>, signature: string): (k: Option<nat>)
    ensures k.Some? ==> IsLastSignedAs(attempts, signature, k.value)
    ensures k.None? ==> forall i :: 0 <= i < |attempts| ==> attempts[i].signature != Some(signature)
  {
    if attempts == [] then None
    else
      var n := |attempts| - 1;
      if attempts[n].signature == Some(signature) then Some(attempts[n].attempt)
      else
        assert forall i :: 0 <= i < n ==> attempts[..n][i] == attempts[i];
        assert forall k: nat :: IsLastSignedAs(attempts[..n], signature, k) ==> IsLastSignedAs(attempts, signature, k);
        LandedAttempt(attempts[..n], signature)
  }

  /** The event is there, with the same request, beneficiaries and attempts. */
  ghost predicate SameButStatus(after: Db, before: Db, e: string)
    requires e in before.events
  {
    e in after.events && after.events[e] == before.events[e].(status := after.events[e].status)
  }

  /** How much of a record's history is read before giving up. */
  const MAX_SIGNATURES: int := 5000

  function ExpiredIf(expires: bool, row: StoredAttempt): StoredAttempt {
    if expires && row.status == SIGNED then row.(status := EXPIRED) else row
  }

  /** Of the first `n` attempts of the snapshot the signed ones are expired; nothing else has changed. */
  ghost predicate Expiring(db: Db, e: string, snapshot: seq<StoredAttempt>, n: nat)
    requires n <= |snapshot|
  {
    && Numbered(db, e, |snapshot|)
    && forall k: nat :: 1 <= k <= |snapshot| ==> db.attempts[(e, k)] == ExpiredIf(k <= n, snapshot[k - 1])
  }

  /** The event's signed attempts are expired, and its other ones as they were. */
  ghost predicate ExpiredAll(before: Db, after: Db, e: string) {
    forall k: nat :: (e, k) in before.attempts ==>
      (e, k) in after.attempts && after.attempts[(e, k)] == ExpiredIf(true, before.attempts[(e, k)])
  }

  lemma ExpiredStays(before: Db, middle: Db, after: Db, e: string)
    requires ExpiredAll(before, middle, e) && after.attempts == middle.attempts
    ensures ExpiredAll(before, after, e)
  {}

  lemma StartExpiring(db: Db, e: string, attempts: seq<StoredAttempt>)
    requires Numbered(db, e, |attempts|) && attempts == AttemptsOf(db, e, |attempts|)
    ensures Expiring(db, e, attempts, 0) && Concerns(db, db, e)
  {}

  lemma DeadRow(db: Db, c: Chain, e: string, attempts: seq<StoredAttempt>, i: nat)
    requires i < |attempts| && Expiring(db, e, attempts, i) && DeadRows(db, c, e)
    ensures (e, i + 1) in db.attempts && db.attempts[(e, i + 1)] == attempts[i]
    ensures attempts[i].status == SIGNED ==> attempts[i].raw.Some? && IsDead(c, attempts[i].raw.value)
  {}

  lemma ExpiredOne(before: Db, after: Db, c: Chain, e: string, attempts: seq<StoredAttempt>, i: nat)
    requires i < |attempts| && Expiring(before, e, attempts, i) && DeadRows(before, c, e)
    requires after == if attempts[i].status == SIGNED then WithAttemptStatus(before, e, i + 1, EXPIRED) else before
    ensures Expiring(after, e, attempts, i + 1) && DeadRows(after, c, e)
    ensures Concerns(before, after, e) && after.events == before.events
  {
    assert Numbered(after, e, |attempts|);
  }

  lemma AllExpired(before: Db, after: Db, c: Chain, e: string, attempts: seq<StoredAttempt>)
    requires Numbered(before, e, |attempts|) && attempts == AttemptsOf(before, e, |attempts|)
    requires Expiring(after, e, attempts, |attempts|) && DeadRows(after, c, e)
    ensures AllClosed(after, e) && ExpiredAll(before, after, e)
  {
    assert Numbered(after, e, |attempts|);
  }

  lemma SameStill(a: Db, b: Db, c: Db, e: string)
    requires e in a.events ==> SameButStatus(b, a, e)
    requires e in b.events ==> SameButStatus(c, b, e)
    ensures e in a.events ==> SameButStatus(c, a, e)
  {}

  /** Every attempt of the event is closed, or signed with a transaction that can never land. */
  ghost predicate DeadRows(db: Db, c: Chain, e: string) {
    forall k: nat :: (e, k) in db.attempts ==>
      var row := db.attempts[(e, k)];
      IsClosed(row.status) || (row.status == SIGNED && row.raw.Some? && IsDead(c, row.raw.value))
  }

  /** Attempts that could not land before a record was found missing are dead ever after. */
  lemma RowsAreDead(rules: Rules, nature: Nature, db: Db, e: string, namespace: Key, s: nat, t: nat, now: nat)
    requires nature.Lawful() && nature.client == rules.client && s <= t <= now
    requires Tidy(rules, db) && e in db.events && db.events[e].status == IN_FLIGHT
    requires forall k: nat :: (e, k) in db.attempts ==> db.attempts[(e, k)].params.namespace == namespace
    requires Spent(db, nature.timeline(s), e, db.events[e].attempts)
    requires !RecordExists(rules.client.env, nature.timeline(t), namespace, rules.client.eventSeed(e))
    ensures DeadRows(db, nature.timeline(now), e)
  {
    TimePasses(nature, s, t);
    TimePasses(nature, t, now);
    assert EventTidy(rules, db, e) && Numbered(db, e, db.events[e].attempts);
    assert ClientValid(rules.client);
    hide ChainInv, Later, CanLand, IsDead, IsBuilt, RecordExists, Nature.Lawful, ClientValid;
    forall k: nat | (e, k) in db.attempts
      ensures var row := db.attempts[(e, k)];
              IsClosed(row.status) || (row.status == SIGNED && row.raw.Some? && IsDead(nature.timeline(now), row.raw.value))
    {
      var row := db.attempts[(e, k)];
      assert RowTidy(rules.client, row, db.events[e], k) && RowSpent(db, nature.timeline(s), e, k);
      if row.status == SIGNED {
        NoRecordMeansDead(rules.client, nature.timeline(s), nature.timeline(t), row.request, row.params, row.raw.value);
        DeadStays(rules.client.env, nature.timeline(t), nature.timeline(now), row.raw.value);
      }
    }
  }

  lemma StartChecking(db: Db, c: Chain, e: string, attempts: seq<StoredAttempt>)
    requires Numbered(db, e, |attempts|) && attempts == AttemptsOf(db, e, |attempts|)
    ensures ClosedSome(db, e, attempts, 0) && Spent(db, c, e, 0) && Concerns(db, db, e)
    ensures forall d :: ClosedFailed(db, d, e, attempts, 0)
    ensures forall d, forwarded, sent :: AllHanded(d, attempts, 0, forwarded, sent)
  {}

  lemma ClosedMore(db: Db, e: string, attempts: seq<StoredAttempt>, n: nat)
    requires n <= |attempts| && ClosedSome(db, e, attempts, n)
    ensures ClosedSome(db, e, attempts, |attempts|)
  {}

  lemma NotSigned(db: Db, e: string, k: nat, c: Chain)
    requires (e, k) in db.attempts && db.attempts[(e, k)].status != PREPARED
    requires db.attempts[(e, k)].status != SIGNED || db.attempts[(e, k)].raw.None?
    ensures RowSpent(db, c, e, k)
  {}

  /** It has landed. */
  lemma HasLandedIsSpent(db: Db, e: string, k: nat, c: Chain, i: nat)
    requires (e, k) in db.attempts && db.attempts[(e, k)].status != PREPARED && i < |c.landed|
    requires db.attempts[(e, k)].raw.Some? ==> c.landed[i].tx.signature == db.attempts[(e, k)].raw.value.signature
    ensures RowSpent(db, c, e, k)
  {}

  lemma CannotLandIsSpent(db: Db, e: string, k: nat, c: Chain)
    requires (e, k) in db.attempts && db.attempts[(e, k)].status != PREPARED
    requires db.attempts[(e, k)].raw.Some? ==> !CanLand(c, db.attempts[(e, k)].raw.value)
    ensures RowSpent(db, c, e, k)
  {}

  lemma NowFailed(db: Db, e: string, k: nat, c: Chain)
    requires (e, k) in db.attempts
    ensures var after := WithAttemptStatus(db, e, k, FAILED);
            (e, k) in after.attempts && after.attempts[(e, k)].status == FAILED && RowSpent(after, c, e, k)
  {}

  // ----- Lists of events -----

  predicate IsCurrent(db: Db, event: StoredEvent, status: EventStatus) {
    event.eventId in db.events && db.events[event.eventId] == event && event.status == status
  }

  /** From the `i`th on, different events as they stand. */
  ghost predicate AreCurrent(db: Db, events: seq<StoredEvent>, i: nat, status: EventStatus) {
    AreDifferent(events) && forall j :: i <= j < |events| ==> IsCurrent(db, events[j], status)
  }

  lemma NextCurrent(db: Db, events: seq<StoredEvent>, i: nat, status: EventStatus)
    requires i < |events| && AreCurrent(db, events, i, status)
    ensures IsCurrent(db, events[i], status)
  {}

  /** The event and its attempts are as they were, to the letter. */
  ghost predicate IsUntouched(before: Db, after: Db, e: string)
    requires e in before.events
  {
    e in after.events && after.events[e] == before.events[e] && SameAttempts(before, after, e)
  }

  ghost predicate IsOneOf(e: string, events: seq<StoredEvent>, n: nat)
    requires n <= |events|
  {
    exists j :: 0 <= j < n && events[j].eventId == e
  }

  /**
    No event comes or goes, or is asked to pay anything else; none is touched
    but the first `n` of these, and no ledger row is lost.
   */
  ghost predicate OnlyTouched(before: Db, after: Db, events: seq<StoredEvent>, n: nat)
    requires n <= |events|
  {
    && after.order == before.order && after.events.Keys == before.events.Keys
    && (forall e :: e in before.events ==> KeepsEvent(before.events[e], after.events[e]))
    && (forall e :: e in before.events && !IsOneOf(e, events, n) ==> IsUntouched(before, after, e))
    && LedgerGrows(before, after)
  }

  ghost predicate LedgerGrows(before: Db, after: Db) {
    before.settlements <= after.settlements && before.entries <= after.entries && before.pools <= after.pools
  }

  lemma KeptEvent(first: Db, before: Db, after: Db, moved: string, e: string)
    requires e in first.events && e in before.events && KeepsEvent(first.events[e], before.events[e])
    requires Concerns(before, after, moved)
    ensures e in after.events && KeepsEvent(first.events[e], after.events[e])
  {
    hide RowsKept, LedgerKept;
  }

  lemma OneTouched(first: Db, before: Db, after: Db, events: seq<StoredEvent>, i: nat)
    requires i < |events| && OnlyTouched(first, before, events, i) && Concerns(before, after, events[i].eventId)
    ensures OnlyTouched(first, after, events, i + 1)
  {
    hide RowsKept, KeepsEvent;
    assert after.events.Keys == first.events.Keys;
    forall e | e in first.events
      ensures KeepsEvent(first.events[e], after.events[e])
    {
      KeptEvent(first, before, after, events[i].eventId, e);
    }
    forall e | e in first.events && !IsOneOf(e, events, i + 1)
      ensures IsUntouched(first, after, e)
    {
      assert events[i].eventId != e;
      assert !IsOneOf(e, events, i) && IsUntouched(first, before, e);
    }
  }

  lemma MoreTouched(before: Db, after: Db, events: seq<StoredEvent>, n: nat)
    requires n <= |events| && OnlyTouched(before, after, events, n)
    ensures OnlyTouched(before, after, events, |events|)
  {
    hide IsUntouched;
    forall e | !IsOneOf(e, events, |events|)
      ensures !IsOneOf(e, events, n)
    {}
  }

  lemma UntouchedYet(before: Db, after: Db, events: seq<StoredEvent>, i: nat)
    requires i < |events| && AreDifferent(events) && OnlyTouched(before, after, events, i)
    requires events[i].eventId in before.events
    ensures IsUntouched(before, after, events[i].eventId)
  {
    assert !IsOneOf(events[i].eventId, events, i);
  }

  /** The reports are of these events, in order. */
  predicate AreOf(reports: seq<(string, Report)>, events: seq<StoredEvent>) {
    |reports| <= |events| && forall i :: 0 <= i < |reports| ==> reports[i].0 == events[i].eventId
  }

  /** Each event has the status reported of it; if the store may fail, unless it is reported unresolved. */
  ghost predicate AsReported(db: Db, reports: seq<(string, Report)>, steady: bool) {
    forall i :: 0 <= i < |reports| && (steady || reports[i].1 != UNRESOLVED) ==>
      HasStatus(db, reports[i].0, Told(reports[i].1))
  }

  predicate HasStatus(db: Db, e: string, status: EventStatus) {
    e in db.events && db.events[e].status == status
  }

  lemma StartReporting(db: Db, events: seq<StoredEvent>, status: EventStatus)
    requires AreCurrent(db, events, 0, status)
    ensures AreDifferent(events) && OnlyTouched(db, db, events, 0) && AreOf([], events)
    ensures forall steady: bool :: AsReported(db, [], steady)
  {}

  lemma NextReported(before: Db, after: Db, events: seq<StoredEvent>, reports: seq<(string, Report)>, report: Report,
                     steady: bool)
    requires AreDifferent(events) && AreOf(reports, events) && |reports| < |events| && AsReported(before, reports, steady)
    requires Concerns(before, after, events[|reports|].eventId)
    requires steady || report != UNRESOLVED ==> HasStatus(after, events[|reports|].eventId, Told(report))
    ensures AreOf(reports + [(events[|reports|].eventId, report)], events)
    ensures AsReported(after, reports + [(events[|reports|].eventId, report)], steady)
  {
    hide RowsKept, LedgerKept;
    forall i | 0 <= i < |reports| && (steady || reports[i].1 != UNRESOLVED)
      ensures HasStatus(after, reports[i].0, Told(reports[i].1))
    {
      assert events[i].eventId != events[|reports|].eventId;
    }
  }

  // ----- A round -----

  /** The first so many events of a status. */
  function FirstListed(db: Db, status: EventStatus, limit: nat): seq<StoredEvent>
    requires forall i :: 0 <= i < |db.order| ==> db.order[i] in db.events
  {
    var listed := Listed(db.order, db.events, status);
    listed[..if limit < |listed| then limit else |listed|]
  }

  /**
    In a round whatever is in flight is resolved, which leaves `middle`; then
    the first so many of what is pending there are settled. Each is reported
    on, and nothing else is touched.
   */
  ghost predicate IsRound(before: Db, middle: Db, after: Db, limit: nat, resolved: seq<(string, Report)>,
                          settled: seq<(string, Report)>, steady: bool)
  {
    && IsListable(before) && IsListable(middle)
    && var inFlight, pending := Listed(before.order, before.events, IN_FLIGHT), FirstListed(middle, PENDING, limit);
    && |resolved| == |inFlight| && AreOf(resolved, inFlight)
    && OnlyTouched(before, middle, inFlight, |inFlight|) && AsReported(middle, resolved, steady)
    && |settled| == |pending| && AreOf(settled, pending)
    && OnlyTouched(middle, after, pending, |pending|) && AsReported(after, settled, steady)
  }

  ghost predicate IsReportedOn(e: string, reports: seq<(string, Report)>) {
    exists i :: 0 <= i < |reports| && reports[i].0 == e
  }

  ghost predicate StoredUnderId(db: Db) {
    forall e <- db.events :: db.events[e].eventId == e
  }

  lemma NothingTouched(db: Db, events: seq<StoredEvent>)
    ensures OnlyTouched(db, db, events, |events|)
  {}

  /**
    However a round ends, no event comes or goes or is asked to pay anything
    else, what is neither in flight nor pending is untouched, and no ledger
    row is lost.
   */
  ghost predicate RoundKeeps(before: Db, after: Db) {
    && after.order == before.order && after.events.Keys == before.events.Keys
    && (forall e :: e in before.events ==> KeepsEvent(before.events[e], after.events[e]))
    && (forall e :: e in before.events && before.events[e].status != IN_FLIGHT && before.events[e].status != PENDING ==>
          IsUntouched(before, after, e))
    && LedgerGrows(before, after)
  }

  /** Whatever is listed is there as listed. */
  lemma ListedAsStored(db: Db, status: EventStatus, limit: nat, i: nat)
    requires IsListable(db) && StoredUnderId(db) && i < |FirstListed(db, status, limit)|
    ensures var event := FirstListed(db, status, limit)[i];
            event.eventId in db.events && db.events[event.eventId] == event && event.status == status
  {
    var listed := Listed(db.order, db.events, status);
    var event := FirstListed(db, status, limit)[i];
    hide Listed;
    assert listed[i] == event;
    var j :| 0 <= j < |db.order| && listed[i] == db.events[db.order[j]];
  }

  /** Whatever has the status is listed, unless the limit is reached first. */
  lemma ListedOrFull(db: Db, status: EventStatus, limit: nat, e: string)
    requires IsListable(db) && e in db.events && db.events[e].status == status
    ensures |FirstListed(db, status, limit)| == limit || db.events[e] in FirstListed(db, status, limit)
  {
    var j :| 0 <= j < |db.order| && db.order[j] == e;
    ListedAll(db.order, db.events, status, j);
    hide Listed;
    var listed := Listed(db.order, db.events, status);
    assert |listed| <= limit ==> FirstListed(db, status, limit) == listed;
  }

  /** What is not in flight is no concern of the first half of a round. */
  lemma PendingStays(before: Db, middle: Db, e: string)
    requires IsListable(before) && StoredUnderId(before) && e in before.events && before.events[e].status != IN_FLIGHT
    requires var inFlight := Listed(before.order, before.events, IN_FLIGHT);
             OnlyTouched(before, middle, inFlight, |inFlight|)
    ensures IsUntouched(before, middle, e)
  {
    var inFlight := Listed(before.order, before.events, IN_FLIGHT);
    hide Listed, SameAttempts, IsUntouched;
    forall i | 0 <= i < |inFlight|
      ensures inFlight[i].eventId != e
    {
      var j :| 0 <= j < |before.order| && inFlight[i] == before.events[before.order[j]];
      UnderId(before, before.order[j]);
    }
    assert !IsOneOf(e, inFlight, |inFlight|);
  }

  /** Nor is what is not pending any of the second half's. */
  lemma OthersStay(middle: Db, after: Db, limit: nat, e: string)
    requires IsListable(middle) && StoredUnderId(middle) && e in middle.events && middle.events[e].status != PENDING
    requires var pending := FirstListed(middle, PENDING, limit);
             OnlyTouched(middle, after, pending, |pending|)
    ensures IsUntouched(middle, after, e)
  {
    hide FirstListed, Listed, SameAttempts, IsUntouched, StoredUnderId;
    var pending := FirstListed(middle, PENDING, limit);
    forall i | 0 <= i < |pending|
      ensures pending[i].eventId != e
    {
      ListedAsStored(middle, PENDING, limit, i);
    }
    assert !IsOneOf(e, pending, |pending|);
  }

  lemma HalvesKeep(before: Db, middle: Db, after: Db, limit: nat)
    requires IsListable(before) && IsListable(middle) && StoredUnderId(before) && StoredUnderId(middle)
    requires var inFlight := Listed(before.order, before.events, IN_FLIGHT);
             OnlyTouched(before, middle, inFlight, |inFlight|)
    requires var pending := FirstListed(middle, PENDING, limit);
             OnlyTouched(middle, after, pending, |pending|)
    ensures RoundKeeps(before, after)
  {
    hide OnlyTouched, FirstListed, Listed, SameAttempts, StoredUnderId, LedgerGrows, RoundKeeps;
    TouchedKeeps(before, middle, Listed(before.order, before.events, IN_FLIGHT));
    TouchedKeeps(middle, after, FirstListed(middle, PENDING, limit));
    forall e | e in before.events && before.events[e].status != IN_FLIGHT && before.events[e].status != PENDING
      ensures IsUntouched(before, after, e)
    {
      PendingStays(before, middle, e);
      OthersStay(middle, after, limit, e);
      UntouchedTwice(before, middle, after, e);
    }
    BothKeep(before, middle, after);
  }

  lemma TouchedKeeps(before: Db, after: Db, events: seq<StoredEvent>)
    requires OnlyTouched(before, after, events, |events|)
    ensures after.order == before.order && after.events.Keys == before.events.Keys && LedgerGrows(before, after)
    ensures forall e :: e in before.events ==> KeepsEvent(before.events[e], after.events[e])
  {}

  lemma BothKeep(a: Db, b: Db, c: Db)
    requires b.order == a.order == c.order && b.events.Keys == a.events.Keys == c.events.Keys
    requires LedgerGrows(a, b) && LedgerGrows(b, c)
    requires forall e :: e in a.events ==> KeepsEvent(a.events[e], b.events[e])
    requires forall e :: e in b.events ==> KeepsEvent(b.events[e], c.events[e])
    requires forall e :: e in a.events && a.events[e].status != IN_FLIGHT && a.events[e].status != PENDING ==>
               IsUntouched(a, c, e)
    ensures RoundKeeps(a, c)
  {
    hide IsUntouched;
  }

  lemma UntouchedTwice(a: Db, b: Db, c: Db, e: string)
    requires e in a.events && IsUntouched(a, b, e) && IsUntouched(b, c, e)
    ensures IsUntouched(a, c, e)
  {}

  /** An event pending before a round stays untouched until it is settled, and is unless the limit is reached first. */
  lemma PendingIsReached(before: Db, middle: Db, after: Db, limit: nat, resolved: seq<(string, Report)>,
                         settled: seq<(string, Report)>, steady: bool, e: string)
    requires IsRound(before, middle, after, limit, resolved, settled, steady) && StoredUnderId(before)
    requires e in before.events && before.events[e].status == PENDING
    ensures IsUntouched(before, middle, e)
    ensures |settled| == limit || IsReportedOn(e, settled)
  {
    hide Listed, AsReported, SameAttempts, OnlyTouched;
    PendingStays(before, middle, e);
    ListedOrFull(middle, PENDING, limit, e);
    var pending := FirstListed(middle, PENDING, limit);
    hide FirstListed, StoredUnderId, IsListable;
    if |settled| < limit {
      var i :| 0 <= i < |pending| && pending[i] == middle.events[e];
      assert settled[i].0 == pending[i].eventId;
      assert before.events[e].eventId == e by {
        UnderId(before, e);
      }
    }
  }

  lemma UnderId(db: Db, e: string)
    requires StoredUnderId(db) && e in db.events
    ensures db.events[e].eventId == e
  {}

  lemma StillCurrent(before: Db, after: Db, events: seq<StoredEvent>, i: nat, status: EventStatus)
    requires i < |events| && AreCurrent(before, events, i, status) && Concerns(before, after, events[i].eventId)
    ensures AreCurrent(after, events, i + 1, status)
  {}
}

/**
  What the worker keeps true of its tables, the chain and everything it ever
  sent, whatever is lost, late, repeated or interrupted; and what follows.
 */
module Protocol {
  import opened Basics
  import opened Codec
  import opened Program
  import opened Splits
  import opened Accounting
  import opened Runs
  import opened Text
  import opened Evidence
  import opened Cluster
  import opened EvidenceLaws
  import opened Tables
  import opened Books

  /** The deployed client and the cap on attempts. */
  datatype Rules = Rules(client: Client, maxAttempts: nat)

  /** The tables, the chain as it is now, and every transaction ever handed to a node that may have passed it on. */
  datatype World = World(db: Db, chain: Chain, forwarded: set<Tx>)

  // ----- Transactions that cannot land any more -----

  ghost predicate CanLand(c: Chain, tx: Tx) {
    !HasLanded(c, tx) && c.height <= tx.lastValidBlockHeight
  }

  /** It cannot land, and it has not landed successfully. */
  ghost predicate IsDead(c: Chain, tx: Tx) {
    !CanLand(c, tx) && !LandedOk(c, tx)
  }

  /** A transaction that cannot land at one moment lands at no later one. */
  lemma CannotLandLater(env: Env, c: Chain, d: Chain, tx: Tx)
    requires ChainInv(env, d) && Later(env, c, d) && !CanLand(c, tx)
    ensures !CanLand(d, tx)
    ensures forall i :: 0 <= i < |d.landed| && d.landed[i].tx == tx ==> i < |c.landed|
  {}

  lemma DeadStays(env: Env, c: Chain, d: Chain, tx: Tx)
    requires ChainInv(env, d) && Later(env, c, d) && IsDead(c, tx)
    ensures IsDead(d, tx)
  {}

  /** It landed, and failed. */
  lemma FailedIsDead(env: Env, c: Chain, tx: Tx, i: nat)
    requires ChainInv(env, c) && i < |c.landed| && c.landed[i].tx.signature == tx.signature && c.landed[i].outcome.None?
    ensures IsDead(c, tx)
  {}

  /** The transaction an attempt signs: what the client builds from its request and parameters. */
  ghost predicate IsBuilt(client: Client, request: Request, params: Params, tx: Tx) {
    var built := Build(client, request, params.payer, params.authority, params.namespace, params.scale);
    built.Ok? && tx.instructions == Instructions(built.value)
  }

  lemma BuiltSettles(client: Client, request: Request, params: Params, tx: Tx)
    requires ClientValid(client) && IsBuilt(client, request, params, tx)
    ensures NamesEvent(client, tx, request.eventId)
    ensures |tx.instructions| == 2 && tx.instructions[1].Call?
    ensures var call := tx.instructions[1];
            && SettledEvent(call.data) == Some(client.eventSeed(request.eventId))
            && |call.metas| > 2 && call.metas[2].key == params.namespace
  {
    var built := Build(client, request, params.payer, params.authority, params.namespace, params.scale).value;
    BuiltUnpacks(client, request, params.payer, params.authority, params.namespace, params.scale);
    UnpackedTag(built.data);
    BuiltIsFound(client, built);
    hide *;
    BuiltNames(client, request, request.amountAtomic * params.scale, built, tx);
  }

  lemma BuiltNames(client: Client, request: Request, total: nat, built: Built, tx: Tx)
    requires tx.instructions == Instructions(built) && built.memo == MemoFor(request, total)
    requires Unpack(built.data).Some? && Unpack(built.data).value.SettleN?
    requires MemoOf(RenderAll(client, Instructions(built)), client.memoProgram) == Some(built.memo)
    ensures NamesEvent(client, tx, request.eventId)
    ensures |tx.instructions| == 2 && tx.instructions[1] == Call(built.metas, built.data)
    ensures SettledEvent(built.data) == Some(Unpack(built.data).value.eventId)
  {}

  /**
    Why the record is read last. A transaction that could not land at an
    earlier moment, and whose record is still missing at a later one, has
    failed or been lost for good.
   */
  lemma NoRecordMeansDead(client: Client, c: Chain, d: Chain, request: Request, params: Params, tx: Tx)
    requires ClientValid(client) && ChainInv(client.env, d) && Later(client.env, c, d)
    requires IsBuilt(client, request, params, tx) && !CanLand(c, tx)
    requires !RecordExists(client.env, d, params.namespace, client.eventSeed(request.eventId))
    ensures IsDead(d, tx)
  {
    CannotLandLater(client.env, c, d, tx);
    BuiltSettles(client, request, params, tx);
    hide IsBuilt, NamesEvent, Inv, LegalInstructions, Execute, SettledEvent;
    if i :| 0 <= i < |d.landed| && d.landed[i].tx == tx && d.landed[i].outcome.Some? {
      TopLevelCreates(client.env, d.landed[i], 1, params.namespace, client.eventSeed(request.eventId));
    }
  }

  // ----- The tables -----

  predicate IsClosed(status: AttemptStatus) {
    status == FAILED || status == EXPIRED
  }

  /** An attempt's row, as long as it is the event's `k`th. */
  ghost predicate RowTidy(client: Client, row: StoredAttempt, event: StoredEvent, k: nat) {
    && row.eventId == event.eventId && row.attempt == k && row.request == event.request
    && row.params.programId == client.env.programId
    && (row.status == PREPARED ==> row.raw.None?)
    && (row.status == SIGNED || row.status == EXPIRED ==> row.raw.Some?)
    && (match row.raw
        case None => row.signature.None? && row.lastValidBlockHeight.None?
        case Some(tx) =>
          && row.signature == Some(tx.signature) && row.lastValidBlockHeight == Some(tx.lastValidBlockHeight)
          && IsBuilt(client, row.request, row.params, tx))
    && (k < event.attempts ==> IsClosed(row.status) || row.status == LANDED)
    && (event.status == PENDING ==> IsClosed(row.status))
    && (row.status == LANDED ==> event.status == PAID)
  }

  /** An event's attempts are numbered 1 to n; all but the last are closed, and all of them while it is pending. */
  ghost predicate EventTidy(rules: Rules, db: Db, e: string)
    requires e in db.events
  {
    var event := db.events[e];
    && event.eventId == e && event.request.eventId == e
    && event.attempts <= rules.maxAttempts
    && Numbered(db, e, event.attempts)
    && forall k: nat :: (e, k) in db.attempts ==> RowTidy(rules.client, db.attempts[(e, k)], event, k)
  }

  ghost predicate Tidy(rules: Rules, db: Db) {
    && (forall e :: e in db.events ==> EventTidy(rules, db, e))
    && (forall e, k :: (e, k) in db.attempts ==> e in db.events)
  }

  // ----- What was sent -----

  /** Attempt `k` of `e` holds the transaction's bytes, and is open, or the transaction is dead. */
  ghost predicate Carries(db: Db, c: Chain, tx: Tx, e: string, k: nat) {
    && (e, k) in db.attempts
    && var row := db.attempts[(e, k)];
       row.raw == Some(tx) && row.status != PREPARED && (row.status == SIGNED || row.status == LANDED || IsDead(c, tx))
  }

  /** Written ahead: everything ever sent is in a row, which is closed only once it cannot land. */
  ghost predicate Recorded(db: Db, c: Chain, forwarded: set<Tx>) {
    forall tx :: tx in forwarded ==> exists e: string, k: nat :: Carries(db, c, tx, e, k)
  }

  // ----- What was decided -----

  /** The landed transaction is the one the record names, it created the event's record, and it paid the request. */
  ghost predicate Proves(client: Client, landing: Landing, record: SettlementRecord, request: Request) {
    && landing.tx.signature == record.signature
    && NamesEvent(client, landing.tx, request.eventId)
    && CreatesRecord(client.env, landing, record.namespace, client.eventSeed(request.eventId))
    && exists i: nat ::
         && PaysExactly(client, landing, i, request, record.namespace, record.scale)
         && IsSignedBy(landing, i, record.payer, record.authority)
  }

  /** The namespace and scale are those of a stored attempt, if there was one. */
  ghost predicate StoredFor(db: Db, e: string, record: SettlementRecord)
    requires e in db.events
  {
    || db.events[e].attempts == 0
    || exists k: nat :: (e, k) in db.attempts && db.attempts[(e, k)].params.namespace == record.namespace
                        && db.attempts[(e, k)].params.scale == record.scale
  }

  ghost predicate RowProven(client: Client, db: Db, c: Chain, row: SettlementRow) {
    && row.eventId in db.events
    && var event := db.events[row.eventId];
       && event.status == PAID
       && row.record.eventId == row.eventId && row.record.amountAtomic == event.request.amountAtomic
       && StoredFor(db, row.eventId, row.record)
       && TellsPayouts(row.record.payouts, event.request, row.record.amountAtomic * row.record.scale, event.beneficiaryIds)
       && exists j :: 0 <= j < |c.landed| && Proves(client, c.landed[j], row.record, event.request)
  }

  ghost predicate PaymentsProven(client: Client, db: Db, c: Chain) {
    && (forall i :: 0 <= i < |db.settlements| ==> RowProven(client, db, c, db.settlements[i]))
    && forall e :: e in db.events && db.events[e].status == PAID ==>
                     exists i :: 0 <= i < |db.settlements| && db.settlements[i].eventId == e
  }

  /** Honest evidence of the landed transaction contradicts the request under these parameters. */
  ghost predicate Contradicts(client: Client, landing: Landing, request: Request, params: Params) {
    exists answer: RpcTransaction, signature: string ::
      && Honest(client, answer, landing)
      && var judged := Judge(client, answer, signature, request, params.namespace, params.scale, map[]);
         judged.Err? && IsMismatch(judged.error)
  }

  /** The transaction created the event's record, and contradicts everything stored for the event. */
  ghost predicate IsIncident(rules: Rules, db: Db, landing: Landing, e: string, namespace: Key)
    requires e in db.events
  {
    var event := db.events[e];
    && CreatesRecord(rules.client.env, landing, namespace, rules.client.eventSeed(e))
    && (forall k: nat :: (e, k) in db.attempts ==>
          && db.attempts[(e, k)].params.namespace == namespace
          && Contradicts(rules.client, landing, event.request, db.attempts[(e, k)].params))
    && (event.attempts == 0 ==>
          exists params: Params :: params.namespace == namespace
                                   && Contradicts(rules.client, landing, event.request, params))
  }

  ghost predicate IncidentsHold(rules: Rules, db: Db, c: Chain) {
    forall e :: e in db.events && db.events[e].status == INCIDENT ==>
      exists j, namespace: Key :: 0 <= j < |c.landed| && IsIncident(rules, db, c.landed[j], e, namespace)
  }

  /** All of it. */
  ghost predicate Sound(rules: Rules, w: World) {
    && Tidy(rules, w.db)
    && Recorded(w.db, w.chain, w.forwarded)
    && PaymentsProven(rules.client, w.db, w.chain)
    && IncidentsHold(rules, w.db, w.chain)
    && BooksInv(w.db)
  }

  // ----- It starts so, and time keeps it so -----

  lemma SoundAtFirst(rules: Rules, c: Chain)
    ensures Sound(rules, World(EMPTY, c, {}))
  {}

  lemma SoundLater(rules: Rules, w: World, d: Chain)
    requires Sound(rules, w) && ChainInv(rules.client.env, d) && Later(rules.client.env, w.chain, d)
    ensures Sound(rules, w.(chain := d))
  {
    var db, c := w.db, w.chain;
    hide ChainInv, Proves, IsIncident, IsDead, BooksInv, EventTidy;
    forall tx | tx in w.forwarded
      ensures exists e: string, k: nat :: Carries(db, d, tx, e, k)
    {
      var e: string, k: nat :| Carries(db, c, tx, e, k);
      if IsDead(c, tx) {
        DeadStays(rules.client.env, c, d, tx);
      }
      assert Carries(db, d, tx, e, k);
    }
    assert forall j :: 0 <= j < |c.landed| ==> d.landed[j] == c.landed[j];
    forall i | 0 <= i < |db.settlements|
      ensures RowProven(rules.client, db, d, db.settlements[i])
    {
      var row := db.settlements[i];
      assert RowProven(rules.client, db, c, row);
      var j :| 0 <= j < |c.landed| && Proves(rules.client, c.landed[j], row.record, db.events[row.eventId].request);
      assert d.landed[j] == c.landed[j];
    }
    forall e | e in db.events && db.events[e].status == INCIDENT
      ensures exists j, namespace: Key :: 0 <= j < |d.landed| && IsIncident(rules, db, d.landed[j], e, namespace)
    {
      var j, namespace: Key :| 0 <= j < |c.landed| && IsIncident(rules, db, c.landed[j], e, namespace);
      assert IsIncident(rules, db, d.landed[j], e, namespace);
    }
  }

  // ----- What follows -----

  /** Bytes name one event. */
  lemma OneEvent(client: Client, tx: Tx, e: string, f: string)
    requires NamesEvent(client, tx, e) && NamesEvent(client, tx, f)
    ensures e == f
  {}

  /**
    The protocol's safety. While an event is pending, no transaction ever sent
    for it can still land, and none of them has landed successfully; so another
    attempt cannot run beside an earlier one.
   */
  lemma PendingIsSafe(rules: Rules, w: World, e: string, tx: Tx)
    requires ClientValid(rules.client) && Sound(rules, w)
    requires e in w.db.events && w.db.events[e].status == PENDING
    requires tx in w.forwarded && NamesEvent(rules.client, tx, e)
    ensures !CanLand(w.chain, tx) && !LandedOk(w.chain, tx)
  {
    var f: string, k: nat :| Carries(w.db, w.chain, tx, f, k);
    assert EventTidy(rules, w.db, f);
    var row := w.db.attempts[(f, k)];
    assert RowTidy(rules.client, row, w.db.events[f], k);
    hide NamesEvent, IsDead, PaymentsProven, IncidentsHold, BooksInv, Recorded, IsBuilt;
    BuiltSettles(rules.client, row.request, row.params, tx);
    OneEvent(rules.client, tx, e, f);
    assert IsDead(w.chain, tx);
    DeadMeans(w.chain, tx);
  }

  lemma DeadMeans(c: Chain, tx: Tx)
    requires IsDead(c, tx)
    ensures !CanLand(c, tx) && !LandedOk(c, tx)
  {}

  /** What a call paid to a wallet is what the lines say was sent there, however often it is listed. */
  lemma {:induction false} SentIsPaid(lines: seq<PayoutLine>, recipients: seq<Meta>, payouts: seq<nat>, k: Key)
    requires |lines| == |recipients| == |payouts|
    requires forall i :: 0 <= i < |lines| ==>
               lines[i].recipient == Base58(recipients[i].key) && lines[i].amount == payouts[i]
    ensures SentTo(lines, Base58(k)) == PaidTo(k, recipients, payouts)
  {
    hide Base58;
    if lines != [] {
      var n := |lines| - 1;
      SentIsPaid(lines[..n], recipients[..n], payouts[..n], k);
      if lines[n].recipient == Base58(k) {
        Base58Injective(recipients[n].key, k);
      }
    }
  }

  /** The books follow the chain: in the call that paid, every wallet received what the record's lines sent it. */
  ghost predicate SentAsBooked(landing: Landing, i: nat, lines: seq<PayoutLine>) {
    var instructions, n := landing.tx.instructions, |lines|;
    && i < |instructions| && instructions[i].Call? && |instructions[i].metas| == n + 5
    && exists payouts: seq<nat> ::
         && |payouts| == n
         && (forall j :: 0 <= j < n ==> payouts[j] == lines[j].amount)
         && forall k: Key :: SentTo(lines, Base58(k)) == PaidTo(k, instructions[i].metas[3..3 + n], payouts)
  }

  lemma BookedIsSent(client: Client, landing: Landing, i: nat, request: Request, namespace: Key, scale: int,
                     lines: seq<PayoutLine>, ids: map<string, string>)
    requires PaysExactly(client, landing, i, request, namespace, scale)
    requires TellsPayouts(lines, request, request.amountAtomic * scale, ids)
    ensures SentAsBooked(landing, i, lines)
  {
    hide Base58, Execute, Split, Process, SettlementChanges, RecordAddress;
    var payouts: seq<nat> :|
      && Split(request.amountAtomic * scale, BpsOfShares(request.shares)) == Ok(payouts)
      && CallPays(client, Execute(client.env, landing.before, landing.tx.instructions[..i]).value.accounts,
                  landing.tx.instructions[i].metas, landing.tx.instructions[i].data, request, namespace,
                  request.amountAtomic * scale, payouts);
    var n := |lines|;
    var recipients := landing.tx.instructions[i].metas[3..3 + n];
    forall j | 0 <= j < n
      ensures lines[j].recipient == Base58(recipients[j].key) && lines[j].amount == payouts[j]
    {
      assert IsLineOf(lines[j], request.shares[j], payouts[j], ids);
      assert Texts(KeysIn(recipients))[j] == RecipientsOf(request.shares)[j];
    }
    forall k: Key
      ensures SentTo(lines, Base58(k)) == PaidTo(k, recipients, payouts)
    {
      SentIsPaid(lines, recipients, payouts, k);
    }
  }

  lemma BookedAsPaid(client: Client, landing: Landing, record: SettlementRecord, request: Request, ids: map<string, string>)
    requires Proves(client, landing, record, request) && record.amountAtomic == request.amountAtomic
    requires TellsPayouts(record.payouts, request, record.amountAtomic * record.scale, ids)
    ensures PaidAsBooked(client, landing, record, request)
  {
    hide PaysExactly, TellsPayouts, SentAsBooked, CreatesRecord, NamesEvent;
    var i: nat :|
      && PaysExactly(client, landing, i, request, record.namespace, record.scale)
      && IsSignedBy(landing, i, record.payer, record.authority);
    BookedIsSent(client, landing, i, request, record.namespace, record.scale, record.payouts, ids);
  }

  /** One call of the transaction paid the request, listed who the record says, and sent every wallet what is booked. */
  ghost predicate PaidAsBooked(client: Client, landing: Landing, record: SettlementRecord, request: Request) {
    exists i: nat ::
      && PaysExactly(client, landing, i, request, record.namespace, record.scale)
      && IsSignedBy(landing, i, record.payer, record.authority)
      && SentAsBooked(landing, i, record.payouts)
  }

  lemma OneRowEach(db: Db, i: nat)
    requires BooksInv(db) && i < |db.settlements|
    ensures forall other :: other in db.settlements && other.eventId == db.settlements[i].eventId ==>
              other == db.settlements[i]
  {
    hide EntryTotal, PoolTotal, BalanceOf, DroppedForAll, OwedByAll, DroppedTotal, SettledTotal;
  }

  lemma ProvesCreation(client: Client, landing: Landing, record: SettlementRecord, request: Request)
    requires Proves(client, landing, record, request)
    ensures CreatesRecord(client.env, landing, record.namespace, client.eventSeed(request.eventId))
  {}

  /**
    End to end. A paid event's settlement row is proven on chain: one landed
    transaction created the record of that event in that namespace, no other
    ever did, and it paid every recipient exactly the split of the stored
    amount times a stored scale; and the books say who got what of it, wallet by
    wallet as the chain has it.
   */
  lemma PaidOnce(rules: Rules, w: World, e: string) returns (row: SettlementRow, j: nat)
    requires ClientValid(rules.client) && Sound(rules, w) && ChainInv(rules.client.env, w.chain)
    requires e in w.db.events && w.db.events[e].status == PAID
    ensures row in w.db.settlements && row.eventId == e && StoredFor(w.db, e, row.record)
    ensures TellsPayouts(row.record.payouts, w.db.events[e].request, row.record.amountAtomic * row.record.scale,
                         w.db.events[e].beneficiaryIds)
    ensures row.record.amountAtomic == w.db.events[e].request.amountAtomic
    ensures j < |w.chain.landed| && PaidAsBooked(rules.client, w.chain.landed[j], row.record, w.db.events[e].request)
    ensures forall other :: other in w.db.settlements && other.eventId == e ==> other == row
    ensures j < |w.chain.landed| && Proves(rules.client, w.chain.landed[j], row.record, w.db.events[e].request)
    ensures forall i :: 0 <= i < |w.chain.landed|
                        && CreatesRecord(rules.client.env, w.chain.landed[i], row.record.namespace, rules.client.eventSeed(e))
                        ==> i == j
  {
    hide ChainInv, CreatesRecord, PaysExactly, NamesEvent, RecordAddress, RowTidy, IncidentsHold, Recorded, EntriesBooked,
      PoolsBooked, ClientValid, Proves, TellsPayouts, PaidAsBooked, Later, BooksInv;
    var i :| 0 <= i < |w.db.settlements| && w.db.settlements[i].eventId == e;
    row := w.db.settlements[i];
    assert EventTidy(rules, w.db, e);
    assert RowProven(rules.client, w.db, w.chain, row);
    OneRowEach(w.db, i);
    j :| 0 <= j < |w.chain.landed| && Proves(rules.client, w.chain.landed[j], row.record, w.db.events[e].request);
    hide EventTidy;
    ProvesCreation(rules.client, w.chain.landed[j], row.record, w.db.events[e].request);
    BookedAsPaid(rules.client, w.chain.landed[j], row.record, w.db.events[e].request, w.db.events[e].beneficiaryIds);
    forall i | 0 <= i < |w.chain.landed|
               && CreatesRecord(rules.client.env, w.chain.landed[i], row.record.namespace, rules.client.eventSeed(e))
      ensures i == j
    {
      CreatedOnce(rules.client.env, w.chain, i, j, row.record.namespace, rules.client.eventSeed(e));
    }
  }

  /** A mismatch is found only in a complete answer about a transaction that succeeded. */
  lemma MismatchSees(client: Client, answer: RpcTransaction, signature: string, request: Request, namespace: Key, scale: int)
    requires var judged := Judge(client, answer, signature, request, namespace, scale, map[]);
             judged.Err? && IsMismatch(judged.error)
    ensures answer.succeeded && answer.blockTime.Some? && signature in answer.signatures
  {
    hide Reconcile, FindSettlement, DecodeSettleNData, MemoOf, GroupAt, SystemTransfers;
  }

  /**
    A settlement built from a request, once landed, contradicts that request
    exactly when a payout, or the rent its record lacked, exceeds what a JSON
    number states exactly.
   */
  lemma OwnSettlementContradicts(client: Client, landing: Landing, request: Request, params: Params)
    requires ClientValid(client) && landing.outcome == Execute(client.env, landing.before, landing.tx.instructions)
    requires landing.outcome.Some? && IsBuilt(client, request, params, landing.tx)
    ensures Contradicts(client, landing, request, params) <==>
            !FitsJson(client, landing.before, request, params.namespace, params.scale)
  {
    hide Honest, Judge, Execute, FitsJson, Build, IsMismatch;
    if Contradicts(client, landing, request, params) {
      var answer, signature :|
        Honest(client, answer, landing)
        && var judged := Judge(client, answer, signature, request, params.namespace, params.scale, map[]);
           judged.Err? && IsMismatch(judged.error);
      MismatchSees(client, answer, signature, request, params.namespace, params.scale);
      HonestSays(client, answer, landing);
      JudgedAlike(client, answer, signature, landing.tx.signature, request, params.namespace, params.scale);
      OwnSettlementJudged(client, answer, landing, request, params.payer, params.authority, params.namespace, params.scale,
                          map[]);
    } else {
      var answer := FullAnswer(client, landing);
      OwnSettlementJudged(client, answer, landing, request, params.payer, params.authority, params.namespace, params.scale,
                          map[]);
      TransfersMismatch();
    }
  }

  lemma FullAnswer(client: Client, landing: Landing) returns (answer: RpcTransaction)
    requires landing.outcome.Some?
    ensures Honest(client, answer, landing) && answer.blockTime.Some?
  {
    answer := RpcTransaction([landing.tx.signature], 0, Some(0), true, RenderAll(client, landing.tx.instructions),
                             RenderGroups(client.env, landing.outcome.value.logs));
  }

  lemma TransfersMismatch()
    ensures IsMismatch(TRANSFER_MISMATCH)
  {}

  /**
    The worker's own settlement is no incident: when an incident's event has an
    attempt that landed successfully, that settlement moved an amount too large
    for the evidence to state.
   */
  lemma OwnSettlementNoIncident(rules: Rules, w: World, e: string, k: nat, j: nat)
    requires ClientValid(rules.client) && Sound(rules, w) && ChainInv(rules.client.env, w.chain)
    requires e in w.db.events && w.db.events[e].status == INCIDENT
    requires (e, k) in w.db.attempts && w.db.attempts[(e, k)].raw.Some?
    requires j < |w.chain.landed| && w.chain.landed[j].tx == w.db.attempts[(e, k)].raw.value
    requires w.chain.landed[j].outcome.Some?
    ensures var params := w.db.attempts[(e, k)].params;
            !FitsJson(rules.client, w.chain.landed[j].before, w.db.events[e].request, params.namespace, params.scale)
  {
    var client, landing, row := rules.client, w.chain.landed[j], w.db.attempts[(e, k)];
    assert EventTidy(rules, w.db, e) && RowTidy(client, row, w.db.events[e], k);
    hide Contradicts, CreatesRecord, IsBuilt, FitsJson, Execute, Inv, LegalInstructions, Evolves, NamesEvent, SettledEvent,
      ClientValid, BooksInv, PaymentsProven, Recorded;
    var i, namespace: Key :| 0 <= i < |w.chain.landed| && IsIncident(rules, w.db, w.chain.landed[i], e, namespace);
    ValidEnv(client);
    BuiltSettles(client, row.request, row.params, landing.tx);
    TopLevelCreates(client.env, landing, 1, namespace, client.eventSeed(e));
    CreatedOnce(client.env, w.chain, i, j, namespace, client.eventSeed(e));
    OwnSettlementContradicts(client, landing, row.request, row.params);
  }

  lemma ValidEnv(client: Client)
    requires ClientValid(client)
    ensures client.env.Valid()
  {}

  /** Whether and how an answer is refused does not depend on which of its signatures it was asked by. */
  lemma JudgedAlike(client: Client, answer: RpcTransaction, s: string, t: string, request: Request, namespace: Key, scale: int)
    requires s in answer.signatures && t in answer.signatures
    requires Judge(client, answer, s, request, namespace, scale, map[]).Err?
    ensures Judge(client, answer, t, request, namespace, scale, map[])
         == Judge(client, answer, s, request, namespace, scale, map[])
  {
    ObservedAlike(client, answer, s, t);
    hide Observe, RequestValid, Sort, MemoMatches, ExpectedKeys, ObservedKeys, SharesOf, PayoutLines, EntriesOf, PoolsOf,
      Texts, Base58;
  }

  lemma ObservedAlike(client: Client, answer: RpcTransaction, s: string, t: string)
    requires s in answer.signatures && t in answer.signatures
    ensures Observe(client, answer, t) == match Observe(client, answer, s)
                                          case Ok(o) => Ok(o.(signature := t))
                                          case Err(code) => Err(code)
  {}
}

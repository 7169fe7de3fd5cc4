/** What an instruction of the program does to every account, aliasing included. */
module Accounting {
  import opened Basics
  import opened LittleEndian
  import opened Splits
  import opened Codec
  import opened Program

  function Lamports(accounts: Accounts, key: Key): nat {
    At(accounts, key).lamports
  }

  ghost predicate OnlyLamportsChange(a: Accounts, b: Accounts) {
    forall k: Key :: At(b, k) == At(a, k).(lamports := At(b, k).lamports)
  }

  /** What a key receives from a list of payouts: the sum over every place it is listed. */
  function PaidTo(key: Key, recipients: seq<Meta>, payouts: seq<nat>): nat
    requires |recipients| == |payouts|
  {
    if recipients == [] then 0
    else
      var n := |recipients| - 1;
      PaidTo(key, recipients[..n], payouts[..n]) + if recipients[n].key == key then payouts[n] else 0
  }

  lemma TransferEffect(a: Accounts, from: Meta, to: Meta, lamports: nat)
    requires Transferred(a, from, to, lamports).Ok?
    ensures var b := Transferred(a, from, to, lamports).value.accounts;
            && OnlyLamportsChange(a, b)
            && At(a, from.key).owner == SYSTEM_PROGRAM
            && lamports <= Lamports(a, from.key)
            && forall k: Key :: Lamports(b, k) == Lamports(a, k)
                                                  - (if k == from.key then lamports else 0)
                                                  + (if k == to.key then lamports else 0)
  {}

  lemma {:induction false} PaidEffect(a: Accounts, payer: Meta, recipients: seq<Meta>, payouts: seq<nat>)
    requires |recipients| == |payouts|
    requires Paid(a, payer, recipients, payouts).Ok?
    ensures var b := Paid(a, payer, recipients, payouts).value.accounts;
            && OnlyLamportsChange(a, b)
            && (Sum(payouts) > 0 ==> At(a, payer.key).owner == SYSTEM_PROGRAM)
            && Sum(payouts) >= 0
            && forall k: Key :: Lamports(b, k) == Lamports(a, k)
                                                  - (if k == payer.key then Sum(payouts) else 0)
                                                  + PaidTo(k, recipients, payouts)
  {
    if recipients != [] {
      var n := |recipients| - 1;
      var first := Paid(a, payer, recipients[..n], payouts[..n]);
      PaidEffect(a, payer, recipients[..n], payouts[..n]);
      SumPrefix(payouts, n);
      assert payouts[..n + 1] == payouts;
      if payouts[n] > 0 {
        TransferEffect(first.value.accounts, payer, recipients[n], payouts[n]);
      }
    }
  }

  /** A created account was an empty system account; only it and the payer change. */
  lemma CreationEffect(env: Env, a: Accounts, payer: Meta, account: Meta, systemProgram: Meta, size: nat)
    requires AccountCreated(env, a, payer, account, systemProgram, size).Ok?
    ensures var b := AccountCreated(env, a, payer, account, systemProgram, size).value.accounts;
            var shortfall := Shortfall(env, a, account.key, size);
            && At(a, account.key).owner == SYSTEM_PROGRAM
            && At(a, account.key).data == []
            && (shortfall > 0 ==> At(a, payer.key).owner == SYSTEM_PROGRAM)
            && At(b, account.key) == Account(env.programId, Lamports(b, account.key), Zeros(size),
                                             At(a, account.key).token)
            && (forall k: Key :: k != account.key ==> At(b, k) == At(a, k).(lamports := Lamports(b, k)))
            && forall k: Key :: Lamports(b, k) == Lamports(a, k)
                                                  - (if k == payer.key then shortfall else 0)
                                                  + (if k == account.key then shortfall else 0)
  {}

  lemma RecordEffect(env: Env, a: Accounts, payer: Meta, namespace: Key, record: Meta,
                     systemProgram: Meta, eventId: Key, amount: u64)
    requires RecordCreated(env, a, payer, namespace, record, systemProgram, eventId, amount).Ok?
    ensures var b := RecordCreated(env, a, payer, namespace, record, systemProgram, eventId, amount).value.accounts;
            var shortfall := Shortfall(env, a, record.key, RECORD_SIZE);
            && record.key == RecordAddress(env, namespace, eventId)
            && At(a, record.key).owner == SYSTEM_PROGRAM
            && At(a, record.key).data == []
            && (shortfall > 0 ==> At(a, payer.key).owner == SYSTEM_PROGRAM)
            && At(b, record.key) == Account(env.programId, Lamports(b, record.key), RecordData(eventId, amount),
                                            At(a, record.key).token)
            && (forall k: Key :: k != record.key ==> At(b, k) == At(a, k).(lamports := Lamports(b, k)))
            && forall k: Key :: Lamports(b, k) == Lamports(a, k)
                                                  - (if k == payer.key then shortfall else 0)
                                                  + (if k == record.key then shortfall else 0)
  {}

  /** The record was created, then the recipients were paid, and that was all. */
  ghost predicate InTwoStages(env: Env, a: Accounts, l: Listing, eventId: Key, amount: u64, payouts: seq<nat>, effect: Effect)
    requires |l.recipients| == |payouts|
  {
    var created := RecordCreated(env, a, l.payer, l.namespace.key, l.record, l.systemProgram, eventId, amount);
    && created.Ok?
    && var paid := Paid(created.value.accounts, l.payer, l.recipients, payouts);
       && paid.Ok?
       && effect == Effect(paid.value.accounts, created.value.inner + paid.value.inner)
  }

  /** The two stages of a native settlement that went through. */
  lemma SettledStages(env: Env, a: Accounts, metas: seq<Meta>, eventId: Key, amount: u64, payouts: seq<nat>)
    requires Settled(env, a, metas, eventId, amount, payouts).Ok?
    ensures |metas| == |payouts| + 5
    ensures var l := ListingOf(metas, |payouts|);
            && AuthorizeError(env, a, l.authority, l.namespace.key).None?
            && (forall i :: 0 <= i < |l.recipients| ==>
                  l.recipients[i].key != l.record.key && At(a, l.recipients[i].key).owner != env.programId)
            && InTwoStages(env, a, l, eventId, amount, payouts, Settled(env, a, metas, eventId, amount, payouts).value)
  {
    hide RecordCreated, Paid, AuthorizeError;
  }

  /** Everything a native settlement changes, from `a` to `b`. */
  ghost predicate SettlementChanges(env: Env, a: Accounts, b: Accounts, payer: Key, recipients: seq<Meta>,
                                    record: Key, eventId: Key, amount: u64, payouts: seq<nat>)
    requires |recipients| == |payouts|
  {
    var shortfall := Shortfall(env, a, record, RECORD_SIZE);
    && At(b, record) == Account(env.programId, Lamports(b, record), RecordData(eventId, amount), At(a, record).token)
    && (forall k: Key :: k != record ==> At(b, k) == At(a, k).(lamports := Lamports(b, k)))
    && PaidTo(record, recipients, payouts) == 0
    && forall k: Key :: Lamports(b, k) == Lamports(a, k) + PaidTo(k, recipients, payouts)
                                          - (if k == payer then amount + shortfall else 0)
                                          + (if k == record then shortfall else 0)
  }

  /** The record's creation followed by the payouts, as one change. */
  lemma CreationThenPayment(env: Env, a: Accounts, payer: Meta, namespace: Key, recipients: seq<Meta>, record: Meta,
                            systemProgram: Meta, eventId: Key, amount: u64, payouts: seq<nat>)
    requires |recipients| == |payouts| && Sum(payouts) == amount > 0 && env.Valid()
    requires forall i :: 0 <= i < |recipients| ==> recipients[i].key != record.key
    requires RecordCreated(env, a, payer, namespace, record, systemProgram, eventId, amount).Ok?
    requires Paid(RecordCreated(env, a, payer, namespace, record, systemProgram, eventId, amount).value.accounts,
                  payer, recipients, payouts).Ok?
    ensures var middle := RecordCreated(env, a, payer, namespace, record, systemProgram, eventId, amount).value.accounts;
            && record.key == RecordAddress(env, namespace, eventId)
            && At(a, record.key).owner == SYSTEM_PROGRAM && At(a, record.key).data == []
            && At(a, payer.key).owner == SYSTEM_PROGRAM && payer.key != record.key
            && SettlementChanges(env, a, Paid(middle, payer, recipients, payouts).value.accounts,
                                 payer.key, recipients, record.key, eventId, amount, payouts)
  {
    RecordEffect(env, a, payer, namespace, record, systemProgram, eventId, amount);
    var middle :=
      RecordCreated(env, a, payer, namespace, record, systemProgram, eventId, amount).value.accounts;
    PaidEffect(middle, payer, recipients, payouts);
    assert At(middle, record.key).owner == env.programId;
    NotListed(record.key, recipients, payouts);
  }

  /**
    Lamport accounting of a native settlement, under any aliasing of payer,
    authority, recipients and record: every account moves by exactly its
    payouts, less the amount and the record's rent shortfall for the payer,
    plus the shortfall for the record. Nothing but the record changes
    otherwise, the record was an empty system account, and the payer is a
    system account other than the record.
   */
  lemma SettlementEffect(env: Env, a: Accounts, metas: seq<Meta>, eventId: Key, amount: u64, payouts: seq<nat>)
    requires Settled(env, a, metas, eventId, amount, payouts).Ok?
    requires Sum(payouts) == amount > 0 && env.Valid()
    ensures |metas| == |payouts| + 5
    ensures var record := metas[3 + |payouts|].key;
            && record == RecordAddress(env, metas[2].key, eventId)
            && At(a, record).owner == SYSTEM_PROGRAM && At(a, record).data == []
            && At(a, metas[0].key).owner == SYSTEM_PROGRAM && metas[0].key != record
            && SettlementChanges(env, a, Settled(env, a, metas, eventId, amount, payouts).value.accounts,
                                 metas[0].key, metas[3..3 + |payouts|], record, eventId, amount, payouts)
  {
    hide Settled, RecordCreated, Paid, SettlementChanges, AuthorizeError, RecordAddress;
    SettledStages(env, a, metas, eventId, amount, payouts);
    var l := ListingOf(metas, |payouts|);
    CreationThenPayment(env, a, l.payer, l.namespace.key, l.recipients, l.record, l.systemProgram, eventId, amount, payouts);
  }

  lemma {:induction false} NotListed(key: Key, recipients: seq<Meta>, payouts: seq<nat>)
    requires |recipients| == |payouts|
    requires forall i :: 0 <= i < |recipients| ==> recipients[i].key != key
    ensures PaidTo(key, recipients, payouts) == 0
  {
    if recipients != [] {
      NotListed(key, recipients[..|recipients| - 1], payouts[..|recipients| - 1]);
    }
  }

  // ----- Token settlements -----

  function Units(accounts: Accounts, key: Key): nat {
    var token := At(accounts, key).token;
    if token.Holding? then token.amount else 0
  }

  /** Only amounts held change. */
  ghost predicate OnlyUnitsChange(a: Accounts, b: Accounts) {
    forall k: Key :: At(b, k) == if At(a, k).token.Holding?
                                 then At(a, k).(token := At(a, k).token.(amount := Units(b, k)))
                                 else At(a, k)
  }

  lemma TokenTransferEffect(a: Accounts, source: Key, mint: Key, destination: Key, authority: Meta,
                            amount: nat, decimals: byte)
    requires TokensMoved(a, source, mint, destination, authority, amount, decimals).Ok?
    ensures var b := TokensMoved(a, source, mint, destination, authority, amount, decimals).value.accounts;
            && OnlyUnitsChange(a, b)
            && forall k: Key :: Units(b, k) == Units(a, k) - (if k == source then amount else 0)
                                                           + (if k == destination then amount else 0)
  {}

  lemma {:induction false} TokensPaidEffect(a: Accounts, source: Key, mint: Key, payer: Meta, recipients: seq<Meta>,
                                            payouts: seq<nat>, decimals: byte)
    requires |recipients| == |payouts|
    requires TokensPaid(a, source, mint, payer, recipients, payouts, decimals).Ok?
    ensures var b := TokensPaid(a, source, mint, payer, recipients, payouts, decimals).value.accounts;
            && OnlyUnitsChange(a, b)
            && forall k: Key :: Units(b, k) == Units(a, k) - (if k == source then Sum(payouts) else 0)
                                                           + PaidTo(k, recipients, payouts)
  {
    if recipients != [] {
      var n := |recipients| - 1;
      var first := TokensPaid(a, source, mint, payer, recipients[..n], payouts[..n], decimals);
      TokensPaidEffect(a, source, mint, payer, recipients[..n], payouts[..n], decimals);
      SumPrefix(payouts, n);
      assert payouts[..n + 1] == payouts;
      if payouts[n] > 0 {
        TokenTransferEffect(first.value.accounts, source, mint, recipients[n].key, payer, payouts[n], decimals);
      }
    }
  }

  /** Everything a token settlement changes, from `a` to `b`. */
  ghost predicate TokenSettlementChanges(env: Env, a: Accounts, b: Accounts, payer: Key, source: Key,
                                         recipients: seq<Meta>, record: Key, eventId: Key, amount: u64,
                                         payouts: seq<nat>)
    requires |recipients| == |payouts|
  {
    var shortfall := Shortfall(env, a, record, RECORD_SIZE);
    && At(b, record) == Account(env.programId, Lamports(b, record), RecordData(eventId, amount), At(b, record).token)
    && (forall k: Key :: k != record ==>
          At(b, k) == At(a, k).(lamports := Lamports(b, k), token := At(b, k).token))
    && (forall k: Key :: Lamports(b, k) == Lamports(a, k) - (if k == payer then shortfall else 0)
                                                          + (if k == record then shortfall else 0))
    && forall k: Key :: Units(b, k) == Units(a, k) + PaidTo(k, recipients, payouts)
                                       - (if k == source then amount else 0)
  }

  lemma CreationThenTokens(env: Env, a: Accounts, payer: Meta, namespace: Key, source: Key, mint: Key,
                           recipients: seq<Meta>, record: Meta, systemProgram: Meta, eventId: Key, amount: u64,
                           decimals: byte, payouts: seq<nat>)
    requires |recipients| == |payouts| && Sum(payouts) == amount && env.Valid()
    requires RecordCreated(env, a, payer, namespace, record, systemProgram, eventId, amount).Ok?
    requires TokensPaid(RecordCreated(env, a, payer, namespace, record, systemProgram, eventId, amount).value.accounts,
                        source, mint, payer, recipients, payouts, decimals).Ok?
    ensures var middle := RecordCreated(env, a, payer, namespace, record, systemProgram, eventId, amount).value.accounts;
            && record.key == RecordAddress(env, namespace, eventId)
            && At(a, record.key).owner == SYSTEM_PROGRAM && At(a, record.key).data == []
            && (Shortfall(env, a, record.key, RECORD_SIZE) > 0 ==> At(a, payer.key).owner == SYSTEM_PROGRAM)
            && TokenSettlementChanges(
                 env, a, TokensPaid(middle, source, mint, payer, recipients, payouts, decimals).value.accounts,
                 payer.key, source, recipients, record.key, eventId, amount, payouts)
  {
    RecordEffect(env, a, payer, namespace, record, systemProgram, eventId, amount);
    var middle :=
      RecordCreated(env, a, payer, namespace, record, systemProgram, eventId, amount).value.accounts;
    TokensPaidEffect(middle, source, mint, payer, recipients, payouts, decimals);
    assert forall k: Key :: Units(middle, k) == Units(a, k);
  }

  /** The record was created, then the tokens were moved, and that was all. */
  ghost predicate InTokenStages(env: Env, a: Accounts, l: TokenListing, eventId: Key, amount: u64, decimals: byte,
                                payouts: seq<nat>, effect: Effect)
    requires |l.recipients| == |payouts|
  {
    var created := RecordCreated(env, a, l.payer, l.namespace.key, l.record, l.systemProgram, eventId, amount);
    && created.Ok?
    && var paid := TokensPaid(created.value.accounts, l.source.key, l.mint.key, l.payer, l.recipients, payouts, decimals);
       && paid.Ok?
       && effect == Effect(paid.value.accounts, created.value.inner + paid.value.inner)
  }

  lemma TokensSettledStages(env: Env, a: Accounts, metas: seq<Meta>, eventId: Key, amount: u64, decimals: byte,
                            payouts: seq<nat>)
    requires TokensSettled(env, a, metas, eventId, amount, decimals, payouts).Ok?
    ensures |metas| == |payouts| + 8
    ensures var l := TokenListingOf(metas, |payouts|);
            && AuthorizeError(env, a, l.authority, l.namespace.key).None?
            && InTokenStages(env, a, l, eventId, amount, decimals, payouts,
                             TokensSettled(env, a, metas, eventId, amount, decimals, payouts).value)
  {
    hide RecordCreated, TokensPaid, AuthorizeError, RecipientError;
  }

  /** A token settlement debits the source by exactly the amount; lamports move only for the record's rent. */
  lemma TokenSettlementEffect(env: Env, a: Accounts, metas: seq<Meta>, eventId: Key, amount: u64, decimals: byte,
                              payouts: seq<nat>)
    requires TokensSettled(env, a, metas, eventId, amount, decimals, payouts).Ok?
    requires Sum(payouts) == amount && env.Valid()
    ensures |metas| == |payouts| + 8
    ensures var record := metas[5 + |payouts|].key;
            && record == RecordAddress(env, metas[2].key, eventId)
            && At(a, record).owner == SYSTEM_PROGRAM && At(a, record).data == []
            && (Shortfall(env, a, record, RECORD_SIZE) > 0 ==> At(a, metas[0].key).owner == SYSTEM_PROGRAM)
            && TokenSettlementChanges(
                 env, a, TokensSettled(env, a, metas, eventId, amount, decimals, payouts).value.accounts,
                 metas[0].key, metas[3].key, metas[4..4 + |payouts|], record, eventId, amount, payouts)
  {
    hide TokensSettled, RecordCreated, TokensPaid, TokenSettlementChanges, AuthorizeError, RecordAddress;
    TokensSettledStages(env, a, metas, eventId, amount, decimals, payouts);
    var l := TokenListingOf(metas, |payouts|);
    CreationThenTokens(env, a, l.payer, l.namespace.key, l.source.key, l.mint.key, l.recipients, l.record, l.systemProgram,
                       eventId, amount, decimals, payouts);
  }

  // ----- Conservation over all accounts -----

  /** What is counted: lamports, or the units of one mint. */
  datatype Measure = OfLamports | OfMint(mint: Key)

  function Weight(m: Measure, account: Account): nat {
    match m
    case OfLamports => account.lamports
    case OfMint(mint) => if account.token.Holding? && account.token.mint == mint then account.token.amount else 0
  }

  ghost function Total(m: Measure, accounts: Accounts): nat {
    if accounts == map[] then 0
    else
      var k :| k in accounts;
      Weight(m, accounts[k]) + Total(m, accounts - {k})
  }

  lemma {:induction false} TotalWithout(m: Measure, accounts: Accounts, key: Key)
    requires key in accounts
    ensures Total(m, accounts) == Weight(m, accounts[key]) + Total(m, accounts - {key})
    decreases |accounts|
  {
    var k :| k in accounts && Total(m, accounts) == Weight(m, accounts[k]) + Total(m, accounts - {k});
    if k != key {
      TotalWithout(m, accounts - {k}, key);
      TotalWithout(m, accounts - {key}, k);
      assert accounts - {k} - {key} == accounts - {key} - {k};
    }
  }

  lemma TotalUpdated(m: Measure, accounts: Accounts, key: Key, account: Account)
    ensures Total(m, accounts[key := account]) ==
            Total(m, accounts) - Weight(m, At(accounts, key)) + Weight(m, account)
  {
    TotalWithout(m, accounts[key := account], key);
    assert accounts[key := account] - {key} == accounts - {key};
    if key in accounts {
      TotalWithout(m, accounts, key);
    } else {
      assert accounts - {key} == accounts;
    }
  }

  lemma TransferConserves(m: Measure, a: Accounts, from: Meta, to: Meta, lamports: nat)
    requires Transferred(a, from, to, lamports).Ok?
    ensures Total(m, Transferred(a, from, to, lamports).value.accounts) == Total(m, a)
  {
    hide Total;
    var source := At(a, from.key);
    var debited := a[from.key := source.(lamports := source.lamports - lamports)];
    TotalUpdated(m, a, from.key, debited[from.key]);
    var target := At(debited, to.key);
    TotalUpdated(m, debited, to.key, target.(lamports := target.lamports + lamports));
  }

  lemma {:induction false} PaymentsConserve(m: Measure, a: Accounts, payer: Meta, recipients: seq<Meta>, payouts: seq<nat>)
    requires |recipients| == |payouts|
    requires Paid(a, payer, recipients, payouts).Ok?
    ensures Total(m, Paid(a, payer, recipients, payouts).value.accounts) == Total(m, a)
  {
    hide Total, Transferred;
    if recipients != [] {
      var n := |recipients| - 1;
      PaymentsConserve(m, a, payer, recipients[..n], payouts[..n]);
      if payouts[n] > 0 {
        TransferConserves(m, Paid(a, payer, recipients[..n], payouts[..n]).value.accounts, payer, recipients[n], payouts[n]);
      }
    }
  }

  lemma TokenTransferConserves(m: Measure, a: Accounts, source: Key, mint: Key, destination: Key, authority: Meta,
                               amount: nat, decimals: byte)
    requires TokensMoved(a, source, mint, destination, authority, amount, decimals).Ok?
    ensures Total(m, TokensMoved(a, source, mint, destination, authority, amount, decimals).value.accounts) == Total(m, a)
  {
    hide Total;
    var from := At(a, source);
    var debited := a[source := from.(token := from.token.(amount := from.token.amount - amount))];
    TotalUpdated(m, a, source, debited[source]);
    var target := At(debited, destination);
    TotalUpdated(m, debited, destination, target.(token := target.token.(amount := target.token.amount + amount)));
  }

  lemma {:induction false} TokenPaymentsConserve(m: Measure, a: Accounts, source: Key, mint: Key, payer: Meta,
                                                 recipients: seq<Meta>, payouts: seq<nat>, decimals: byte)
    requires |recipients| == |payouts|
    requires TokensPaid(a, source, mint, payer, recipients, payouts, decimals).Ok?
    ensures Total(m, TokensPaid(a, source, mint, payer, recipients, payouts, decimals).value.accounts) == Total(m, a)
  {
    hide Total, TokensMoved;
    if recipients != [] {
      var n := |recipients| - 1;
      TokenPaymentsConserve(m, a, source, mint, payer, recipients[..n], payouts[..n], decimals);
      if payouts[n] > 0 {
        TokenTransferConserves(m, TokensPaid(a, source, mint, payer, recipients[..n], payouts[..n], decimals).value.accounts,
                               source, mint, recipients[n].key, payer, payouts[n], decimals);
      }
    }
  }

  lemma CreationConserves(m: Measure, env: Env, a: Accounts, payer: Meta, account: Meta, systemProgram: Meta,
                          size: nat, data: seq<byte>)
    requires AccountCreated(env, a, payer, account, systemProgram, size).Ok?
    ensures var b := AccountCreated(env, a, payer, account, systemProgram, size).value.accounts;
            Total(m, b) == Total(m, WithData(b, account.key, data)) == Total(m, a)
  {
    var shortfall := Shortfall(env, a, account.key, size);
    var funded := if shortfall > 0 then Transferred(a, payer, account, shortfall).value.accounts else a;
    if shortfall > 0 {
      TransferConserves(m, a, payer, account, shortfall);
    }
    TotalUpdated(m, funded, account.key, At(funded, account.key).(data := Zeros(size), owner := env.programId));
    var b := AccountCreated(env, a, payer, account, systemProgram, size).value.accounts;
    TotalUpdated(m, b, account.key, At(b, account.key).(data := data));
  }

  lemma RecordConserves(m: Measure, env: Env, a: Accounts, payer: Meta, namespace: Key, record: Meta,
                        systemProgram: Meta, eventId: Key, amount: u64)
    requires RecordCreated(env, a, payer, namespace, record, systemProgram, eventId, amount).Ok?
    ensures Total(m, RecordCreated(env, a, payer, namespace, record, systemProgram, eventId, amount).value.accounts)
         == Total(m, a)
  {
    CreationConserves(m, env, a, payer, record, systemProgram, RECORD_SIZE, RecordData(eventId, amount));
  }

  lemma SettlementConserves(m: Measure, env: Env, a: Accounts, metas: seq<Meta>, eventId: Key, amount: u64,
                            payouts: seq<nat>)
    requires Settled(env, a, metas, eventId, amount, payouts).Ok?
    ensures Total(m, Settled(env, a, metas, eventId, amount, payouts).value.accounts) == Total(m, a)
  {
    hide Settled, RecordCreated, Paid, AuthorizeError, Total;
    SettledStages(env, a, metas, eventId, amount, payouts);
    var l := ListingOf(metas, |payouts|);
    RecordConserves(m, env, a, l.payer, l.namespace.key, l.record, l.systemProgram, eventId, amount);
    var created := RecordCreated(env, a, l.payer, l.namespace.key, l.record, l.systemProgram, eventId, amount);
    PaymentsConserve(m, created.value.accounts, l.payer, l.recipients, payouts);
  }

  lemma TokenSettlementConserves(m: Measure, env: Env, a: Accounts, metas: seq<Meta>, eventId: Key, amount: u64,
                                 decimals: byte, payouts: seq<nat>)
    requires TokensSettled(env, a, metas, eventId, amount, decimals, payouts).Ok?
    ensures Total(m, TokensSettled(env, a, metas, eventId, amount, decimals, payouts).value.accounts) == Total(m, a)
  {
    hide TokensSettled, RecordCreated, TokensPaid, AuthorizeError, Total;
    TokensSettledStages(env, a, metas, eventId, amount, decimals, payouts);
    var l := TokenListingOf(metas, |payouts|);
    RecordConserves(m, env, a, l.payer, l.namespace.key, l.record, l.systemProgram, eventId, amount);
    var created := RecordCreated(env, a, l.payer, l.namespace.key, l.record, l.systemProgram, eventId, amount);
    TokenPaymentsConserve(m, created.value.accounts, l.source.key, l.mint.key, l.payer, l.recipients, payouts, decimals);
  }

  /** No instruction creates or destroys a lamport, or a unit of any mint. */
  lemma ProcessConserves(m: Measure, env: Env, a: Accounts, metas: seq<Meta>, data: seq<byte>)
    requires Process(env, a, metas, data).Ok?
    ensures Total(m, Process(env, a, metas, data).value.accounts) == Total(m, a)
  {
    hide Settled, TokensSettled;
    match Unpack(data).value
    case CreateNamespace(namespaceId, authority) =>
      CreationConserves(m, env, a, metas[0], metas[2], metas[3], NAMESPACE_SIZE,
                        NamespaceData(env.bump(NamespaceSeeds(metas[1].key, namespaceId)), metas[1].key, namespaceId,
                                      authority));
    case SetNamespaceAuthority(newAuthority) =>
      var account := At(a, metas[1].key);
      TotalUpdated(m, a, metas[1].key, account.(data := account.data[..AUTHORITY_OFFSET] + newAuthority));
    case SettleN(eventId, amount, bps) =>
      SettlementConserves(m, env, a, metas, eventId, amount, SharesOf(amount, bps).value);
    case SettleTokenN(eventId, amount, decimals, bps) =>
      TokenSettlementConserves(m, env, a, metas, eventId, amount, decimals, SharesOf(amount, bps).value);
  }
}

/** When a creation or a settlement goes through, whatever lamports strangers sent to its address. */
module Funding {
  import opened Basics
  import opened LittleEndian
  import opened Splits
  import opened Codec
  import opened Program
  import opened Accounting
  import opened Runs

  function Max(x: nat, y: nat): nat {
    if x < y then y else x
  }

  ghost predicate CanPay(a: Accounts, payer: Meta, lamports: int) {
    lamports > 0 ==> Untouched(a, payer.key) && Lamports(a, payer.key) >= lamports
  }

  /**
    In every reachable state a record or namespace address that the program does
    not own yet can be created by any payer able to make up the missing rent:
    lamports already there only lower the price.
   */
  lemma PrefundingNeverBlocks(env: Env, a: Accounts, payer: Meta, account: Meta, systemProgram: Meta, size: nat)
    requires env.Valid() && Inv(env, a) && IsDerived(env, account.key)
    ensures AccountCreated(env, a, payer, account, systemProgram, size).Ok? <==>
              && !Owned(env, a, account.key)
              && payer.isSigner && payer.isWritable && account.isWritable
              && systemProgram.key == SYSTEM_PROGRAM
              && CanPay(a, payer, Shortfall(env, a, account.key, size))
    ensures AccountCreated(env, a, payer, account, systemProgram, size).Ok? && payer.key != account.key ==>
              var b := AccountCreated(env, a, payer, account, systemProgram, size).value.accounts;
              && Lamports(b, account.key) == Max(Lamports(a, account.key), env.rent(size))
              && Lamports(a, payer.key) - Lamports(b, payer.key) == Lamports(b, account.key) - Lamports(a, account.key)
  {}

  lemma {:induction false} PaidSucceeds(a: Accounts, payer: Meta, recipients: seq<Meta>, payouts: seq<nat>)
    requires |recipients| == |payouts|
    requires payer.isSigner && payer.isWritable
    requires forall i :: 0 <= i < |recipients| ==> recipients[i].isWritable
    requires CanPay(a, payer, Sum(payouts)) && Sum(payouts) >= 0
    ensures Paid(a, payer, recipients, payouts).Ok?
  {
    if recipients != [] {
      var n := |recipients| - 1;
      SumPrefix(payouts, n);
      assert payouts[..n + 1] == payouts;
      SumOfPrefix(payouts[..n]);
      PaidSucceeds(a, payer, recipients[..n], payouts[..n]);
      PaidEffect(a, payer, recipients[..n], payouts[..n]);
    }
  }

  lemma {:induction false} SumOfPrefix(s: seq<nat>)
    ensures Sum(s) >= 0
  {
    if s != [] {
      SumOfPrefix(s[1..]);
    }
  }

  /** Everything a native settlement is checked for, but the payer's balance. */
  ghost predicate WellMade(env: Env, a: Accounts, l: Listing, eventId: Key) {
    && AuthorizeError(env, a, l.authority, l.namespace.key).None?
    && l.payer.isSigner && l.payer.isWritable && l.record.isWritable
    && l.record.key == RecordAddress(env, l.namespace.key, eventId)
    && l.systemProgram.key == SYSTEM_PROGRAM
    && (forall i :: 0 <= i < |l.recipients| ==>
          && l.recipients[i].isWritable
          && l.recipients[i].key != l.record.key
          && !Owned(env, a, l.recipients[i].key))
    && !Owned(env, a, l.record.key)
    && l.payer.key != l.record.key
  }

  function Price(env: Env, a: Accounts, l: Listing, amount: u64): nat {
    amount + Shortfall(env, a, l.record.key, RECORD_SIZE)
  }

  /** The two stages of a settlement, and what passing the first checks means. */
  lemma Stages(env: Env, a: Accounts, l: Listing, eventId: Key, amount: u64, payouts: seq<nat>)
    requires |l.recipients| == |payouts|
    ensures var created := RecordCreated(env, a, l.payer, l.namespace.key, l.record, l.systemProgram, eventId, amount);
            SettledWith(env, a, l, eventId, amount, payouts).Ok? <==>
              && AuthorizeError(env, a, l.authority, l.namespace.key).None?
              && (forall i :: 0 <= i < |l.recipients| ==>
                    && l.recipients[i].isWritable
                    && l.recipients[i].key != l.record.key
                    && !Owned(env, a, l.recipients[i].key))
              && created.Ok?
              && Paid(created.value.accounts, l.payer, l.recipients, payouts).Ok?
  {}

  lemma {:induction false} PayerOfPayment(a: Accounts, payer: Meta, recipients: seq<Meta>, payouts: seq<nat>)
    requires |recipients| == |payouts| && Sum(payouts) > 0
    requires Paid(a, payer, recipients, payouts).Ok?
    ensures Untouched(a, payer.key)
  {
    var n := |recipients| - 1;
    SumPrefix(payouts, n);
    assert payouts[..n + 1] == payouts;
    PaidEffect(a, payer, recipients[..n], payouts[..n]);
    if payouts[n] == 0 {
      PayerOfPayment(a, payer, recipients[..n], payouts[..n]);
    }
  }

  lemma WellMadeSettles(env: Env, a: Accounts, l: Listing, eventId: Key, amount: u64, payouts: seq<nat>)
    requires env.Valid() && Inv(env, a) && |l.recipients| == |payouts| && Sum(payouts) == amount > 0
    requires WellMade(env, a, l, eventId) && CanPay(a, l.payer, Price(env, a, l, amount))
    ensures SettledWith(env, a, l, eventId, amount, payouts).Ok?
  {
    hide SettledWith;
    assert IsDerived(env, l.record.key);
    PrefundingNeverBlocks(env, a, l.payer, l.record, l.systemProgram, RECORD_SIZE);
    var created := RecordCreated(env, a, l.payer, l.namespace.key, l.record, l.systemProgram, eventId, amount);
    RecordEffect(env, a, l.payer, l.namespace.key, l.record, l.systemProgram, eventId, amount);
    PaidSucceeds(created.value.accounts, l.payer, l.recipients, payouts);
    Stages(env, a, l, eventId, amount, payouts);
  }

  lemma SettledIsWellMade(env: Env, a: Accounts, l: Listing, eventId: Key, amount: u64, payouts: seq<nat>)
    requires env.Valid() && Inv(env, a) && |l.recipients| == |payouts| && Sum(payouts) == amount > 0
    requires SettledWith(env, a, l, eventId, amount, payouts).Ok?
    ensures WellMade(env, a, l, eventId)
    ensures PaidTo(l.payer.key, l.recipients, payouts) == 0 ==> CanPay(a, l.payer, Price(env, a, l, amount))
  {
    hide SettledWith;
    Stages(env, a, l, eventId, amount, payouts);
    var middle := RecordCreated(env, a, l.payer, l.namespace.key, l.record, l.systemProgram, eventId, amount).value.accounts;
    RecordEffect(env, a, l.payer, l.namespace.key, l.record, l.systemProgram, eventId, amount);
    PaidEffect(middle, l.payer, l.recipients, payouts);
    PayerOfPayment(middle, l.payer, l.recipients, payouts);
    var b := Paid(middle, l.payer, l.recipients, payouts).value.accounts;
    assert Lamports(b, l.payer.key) >= 0;
  }

  /**
    When a native settlement goes through. A payer holding the amount and the
    record's missing rent always suffices; unless it is paid itself, no less
    will do.
   */
  lemma SettlementGoesThrough(env: Env, a: Accounts, l: Listing, eventId: Key, amount: u64, payouts: seq<nat>)
    requires env.Valid() && Inv(env, a) && |l.recipients| == |payouts| && Sum(payouts) == amount > 0
    ensures WellMade(env, a, l, eventId) && CanPay(a, l.payer, Price(env, a, l, amount))
            ==> SettledWith(env, a, l, eventId, amount, payouts).Ok?
    ensures SettledWith(env, a, l, eventId, amount, payouts).Ok? ==> WellMade(env, a, l, eventId)
    ensures SettledWith(env, a, l, eventId, amount, payouts).Ok? && PaidTo(l.payer.key, l.recipients, payouts) == 0
            ==> CanPay(a, l.payer, Price(env, a, l, amount))
  {
    hide SettledWith, WellMade, CanPay, Inv;
    if SettledWith(env, a, l, eventId, amount, payouts).Ok? {
      SettledIsWellMade(env, a, l, eventId, amount, payouts);
    } else if WellMade(env, a, l, eventId) && CanPay(a, l.payer, Price(env, a, l, amount)) {
      WellMadeSettles(env, a, l, eventId, amount, payouts);
    }
  }

  // ----- Namespaces -----

  /** When a namespace can be opened, position by position. */
  lemma NamespaceGoesThrough(env: Env, a: Accounts, metas: seq<Meta>, namespaceId: Key, authority: Key)
    requires env.Valid() && Inv(env, a)
    ensures NamespaceCreated(env, a, metas, namespaceId, authority).Ok? <==>
              && |metas| == 4
              && metas[0].isSigner && metas[0].isWritable && metas[1].isSigner && metas[2].isWritable
              && metas[2].key == NamespaceAddress(env, metas[1].key, namespaceId) && !Owned(env, a, metas[2].key)
              && metas[3].key == SYSTEM_PROGRAM && authority != SYSTEM_PROGRAM
              && CanPay(a, metas[0], Shortfall(env, a, metas[2].key, NAMESPACE_SIZE))
  {
    hide Inv, CanPay;
    if |metas| == 4 && metas[2].key == NamespaceAddress(env, metas[1].key, namespaceId) {
      assert IsDerived(env, metas[2].key);
      PrefundingNeverBlocks(env, a, metas[0], metas[2], metas[3], NAMESPACE_SIZE);
    }
  }

  /** When an authority can be handed on, in a reachable state, and that it is. */
  lemma RotationGoesThrough(env: Env, a: Accounts, metas: seq<Meta>, newAuthority: Key)
    requires env.Valid() && Inv(env, a)
    ensures AuthoritySet(env, a, metas, newAuthority).Ok? <==>
              && |metas| == 3
              && IsNamespace(env, a, metas[1].key) && metas[1].isWritable
              && metas[0].isSigner && metas[0].key == AuthorityOf(At(a, metas[1].key).data)
              && metas[2].isSigner && metas[2].key == newAuthority != SYSTEM_PROGRAM
    ensures AuthoritySet(env, a, metas, newAuthority).Ok? ==>
              var b := AuthoritySet(env, a, metas, newAuthority).value.accounts;
              IsNamespace(env, b, metas[1].key) && AuthorityOf(At(b, metas[1].key).data) == newAuthority
  {
    if |metas| == 3 {
      if AuthorizeError(env, a, metas[0], metas[1].key).None? {
        AuthorizedNamespace(env, a, metas[0], metas[1].key);
      }
      var data := At(a, metas[1].key).data;
      if |data| == NAMESPACE_SIZE {
        var next := data[..AUTHORITY_OFFSET] + newAuthority;
        assert next[2..34] == data[2..34] && next[34..66] == data[34..66] && next[AUTHORITY_OFFSET..] == newAuthority;
      }
    }
  }

  // ----- Token settlements -----

  /** The account reads as an unfrozen holding of the mint, or a frozen one where that is allowed. */
  predicate Holds(a: Accounts, key: Key, mint: Key, frozen: bool) {
    var token := At(a, key).token;
    token.Holding? && token.mint == mint && (token.frozen ==> frozen)
  }

  lemma {:induction false} RecipientsAccepted(a: Accounts, source: Key, record: Key, mint: Key, recipients: seq<Meta>)
    ensures RecipientError(a, source, record, mint, recipients).None? <==>
            forall i :: 0 <= i < |recipients| ==>
              recipients[i].key != source && recipients[i].key != record && Holds(a, recipients[i].key, mint, true)
  {
    if recipients != [] {
      var n := |recipients| - 1;
      RecipientsAccepted(a, source, record, mint, recipients[..n]);
      assert forall i :: 0 <= i < n ==> recipients[..n][i] == recipients[i];
    }
  }

  /** What moving tokens to a list of other accounts takes: a source that has them, and no frozen payee. */
  ghost predicate CanMove(a: Accounts, source: Key, mint: Key, payer: Meta, recipients: seq<Meta>, payouts: seq<nat>)
    requires |recipients| == |payouts|
  {
    && (Sum(payouts) > 0 ==> Holds(a, source, mint, false) && At(a, source).token.amount >= Sum(payouts))
    && forall i :: 0 <= i < |payouts| && payouts[i] > 0 ==> Holds(a, recipients[i].key, mint, false)
  }

  lemma {:induction false} TokensPaidIff(a: Accounts, source: Key, mint: Key, payer: Meta, recipients: seq<Meta>,
                                         payouts: seq<nat>, decimals: byte)
    requires |recipients| == |payouts| && payer.isSigner
    requires At(a, mint).token.Mint? && At(a, mint).token.decimals == decimals
    requires Holds(a, source, mint, true) && At(a, source).token.holder == payer.key
    requires forall i :: 0 <= i < |recipients| ==>
               recipients[i].key != source && Holds(a, recipients[i].key, mint, true)
    ensures TokensPaid(a, source, mint, payer, recipients, payouts, decimals).Ok? <==>
            CanMove(a, source, mint, payer, recipients, payouts)
  {
    if recipients != [] {
      var n := |recipients| - 1;
      TokensPaidIff(a, source, mint, payer, recipients[..n], payouts[..n], decimals);
      CanMoveLast(a, source, mint, payer, recipients, payouts);
      var first := TokensPaid(a, source, mint, payer, recipients[..n], payouts[..n], decimals);
      if first.Ok? {
        TokensPaidEffect(a, source, mint, payer, recipients[..n], payouts[..n], decimals);
        NotListed(source, recipients[..n], payouts[..n]);
        SumOfPrefix(payouts[..n]);
        hide CanMove, TokensMoved;
        LastMove(a, first.value.accounts, source, mint, payer, recipients[n].key, Sum(payouts[..n]), payouts[n], decimals);
      }
    }
  }

  lemma CanMoveLast(a: Accounts, source: Key, mint: Key, payer: Meta, recipients: seq<Meta>, payouts: seq<nat>)
    requires |recipients| == |payouts| > 0
    ensures var n := |recipients| - 1;
            CanMove(a, source, mint, payer, recipients, payouts) <==>
              && CanMove(a, source, mint, payer, recipients[..n], payouts[..n])
              && (payouts[n] > 0 ==>
                    && Holds(a, source, mint, false)
                    && At(a, source).token.amount >= Sum(payouts[..n]) + payouts[n]
                    && Holds(a, recipients[n].key, mint, false))
  {
    var n := |recipients| - 1;
    SumPrefix(payouts, n);
    assert payouts[..n + 1] == payouts;
    SumOfPrefix(payouts[..n]);
    assert forall i :: 0 <= i < n ==> payouts[..n][i] == payouts[i] && recipients[..n][i] == recipients[i];
  }

  /** One more payment, after `spent` has gone from the source. */
  lemma LastMove(a: Accounts, b: Accounts, source: Key, mint: Key, payer: Meta, recipient: Key, spent: nat, amount: nat,
                 decimals: byte)
    requires OnlyUnitsChange(a, b) && Units(b, source) == Units(a, source) - spent
    requires At(a, mint).token.Mint? && At(a, mint).token.decimals == decimals
    requires Holds(a, source, mint, true) && At(a, source).token.holder == payer.key && payer.isSigner
    requires recipient != source && Holds(a, recipient, mint, true)
    ensures TokensMoved(b, source, mint, recipient, payer, amount, decimals).Ok? <==>
              && Holds(a, source, mint, false) && Holds(a, recipient, mint, false)
              && At(a, source).token.amount >= spent + amount
  {}

  /** Another account of the token program's that holds the mint, unfrozen unless nothing is due to it. */
  ghost predicate IsPayee(env: Env, a: Accounts, recipient: Meta, source: Key, mint: Key, record: Key, frozen: bool) {
    && recipient.isWritable && recipient.key != source && recipient.key != record
    && At(a, recipient.key).owner == env.tokenProgram && Holds(a, recipient.key, mint, frozen)
  }

  /** Everything a token settlement is checked for, position by position. */
  ghost predicate TokensWellMade(env: Env, a: Accounts, metas: seq<Meta>, eventId: Key, decimals: byte, payouts: seq<nat>) {
    var n := |payouts|;
    && |metas| == n + 8
    && AuthorizeError(env, a, metas[1], metas[2].key).None?
    && metas[0].isSigner && metas[0].isWritable && metas[3].isWritable && metas[5 + n].isWritable
    && metas[5 + n].key == RecordAddress(env, metas[2].key, eventId) && !Owned(env, a, metas[5 + n].key)
    && metas[6 + n].key == SYSTEM_PROGRAM && metas[7 + n].key == env.tokenProgram
    && At(a, metas[4 + n].key).owner == env.tokenProgram && At(a, metas[4 + n].key).token == Mint(decimals, true)
    && At(a, metas[3].key).owner == env.tokenProgram
    && Holds(a, metas[3].key, metas[4 + n].key, false) && At(a, metas[3].key).token.holder == metas[0].key
    && var recipients := metas[4..4 + n];
       forall i :: 0 <= i < n ==>
         IsPayee(env, a, recipients[i], metas[3].key, metas[4 + n].key, metas[5 + n].key, payouts[i] == 0)
  }

  /** The source holds the amount, and the payer can make up the record's missing rent. */
  ghost predicate TokensFunded(env: Env, a: Accounts, metas: seq<Meta>, amount: nat, payouts: seq<nat>)
    requires |metas| == |payouts| + 8
  {
    && Units(a, metas[3].key) >= amount
    && CanPay(a, metas[0], Shortfall(env, a, metas[5 + |payouts|].key, RECORD_SIZE))
  }

  /** What passing the checks on a token settlement's accounts means, position by position. */
  lemma TokenChecks(env: Env, a: Accounts, metas: seq<Meta>, decimals: byte, n: nat)
    requires |metas| == n + 8
    ensures TokenError(env, a, TokenListingOf(metas, n), decimals).None? <==>
              && AuthorizeError(env, a, metas[1], metas[2].key).None?
              && metas[7 + n].key == env.tokenProgram && metas[3].isWritable
              && At(a, metas[4 + n].key).owner == env.tokenProgram && At(a, metas[4 + n].key).token == Mint(decimals, true)
              && At(a, metas[3].key).owner == env.tokenProgram
              && Holds(a, metas[3].key, metas[4 + n].key, true) && At(a, metas[3].key).token.holder == metas[0].key
              && var recipients := metas[4..4 + n];
                 forall i :: 0 <= i < n ==>
                   IsPayee(env, a, recipients[i], metas[3].key, metas[4 + n].key, metas[5 + n].key, true)
  {
    hide AuthorizeError, RecipientError;
    var l := TokenListingOf(metas, n);
    RecipientsAccepted(a, l.source.key, l.record.key, l.mint.key, l.recipients);
  }

  /** Creating a record touches no token. */
  lemma RecordKeepsTokens(env: Env, a: Accounts, payer: Meta, namespace: Key, record: Meta, systemProgram: Meta,
                          eventId: Key, amount: u64)
    requires RecordCreated(env, a, payer, namespace, record, systemProgram, eventId, amount).Ok?
    ensures var b := RecordCreated(env, a, payer, namespace, record, systemProgram, eventId, amount).value.accounts;
            forall k: Key :: At(b, k).token == At(a, k).token
  {
    RecordEffect(env, a, payer, namespace, record, systemProgram, eventId, amount);
  }

  /** When a record can be created in a reachable state. */
  lemma RecordGoesThrough(env: Env, a: Accounts, payer: Meta, namespace: Key, record: Meta, systemProgram: Meta,
                          eventId: Key, amount: u64)
    requires env.Valid() && Inv(env, a)
    ensures RecordCreated(env, a, payer, namespace, record, systemProgram, eventId, amount).Ok? <==>
              && record.key == RecordAddress(env, namespace, eventId) && !Owned(env, a, record.key)
              && payer.isSigner && payer.isWritable && record.isWritable && systemProgram.key == SYSTEM_PROGRAM
              && CanPay(a, payer, Shortfall(env, a, record.key, RECORD_SIZE))
  {
    hide Inv, CanPay;
    if record.key == RecordAddress(env, namespace, eventId) {
      assert IsDerived(env, record.key);
      PrefundingNeverBlocks(env, a, payer, record, systemProgram, RECORD_SIZE);
    }
  }

  /**
    When a token settlement goes through: exactly when it is well made, its
    source holds the amount, and its payer can make up the record's missing rent.
   */
  lemma TokenSettlementGoesThrough(env: Env, a: Accounts, metas: seq<Meta>, eventId: Key, amount: u64, decimals: byte,
                                   payouts: seq<nat>)
    requires env.Valid() && Inv(env, a) && Sum(payouts) == amount > 0
    ensures TokensSettled(env, a, metas, eventId, amount, decimals, payouts).Ok? <==>
              && TokensWellMade(env, a, metas, eventId, decimals, payouts)
              && TokensFunded(env, a, metas, amount, payouts)
  {
    hide TokenError, RecordCreated, TokensPaid, AuthorizeError, Inv, CanPay, RecordAddress, IsPayee, CanMove;
    if |metas| == |payouts| + 8 {
      var n := |payouts|;
      var l := TokenListingOf(metas, n);
      TokenChecks(env, a, metas, decimals, n);
      RecordGoesThrough(env, a, l.payer, l.namespace.key, l.record, l.systemProgram, eventId, amount);
      var created := RecordCreated(env, a, l.payer, l.namespace.key, l.record, l.systemProgram, eventId, amount);
      PayeesAndPayouts(env, a, metas, payouts);
      TokenStages(env, a, metas, eventId, amount, decimals, payouts);
      hide TokensSettled;
      if TokenError(env, a, l, decimals).None? && created.Ok? {
        RecordKeepsTokens(env, a, l.payer, l.namespace.key, l.record, l.systemProgram, eventId, amount);
        MovesAfterCreation(env, a, created.value.accounts, metas, decimals, payouts);
      }
    }
  }

  lemma TokenStages(env: Env, a: Accounts, metas: seq<Meta>, eventId: Key, amount: u64, decimals: byte, payouts: seq<nat>)
    requires |metas| == |payouts| + 8
    ensures var l := TokenListingOf(metas, |payouts|);
            var created := RecordCreated(env, a, l.payer, l.namespace.key, l.record, l.systemProgram, eventId, amount);
            TokensSettled(env, a, metas, eventId, amount, decimals, payouts).Ok? <==>
              && TokenError(env, a, l, decimals).None? && created.Ok?
              && TokensPaid(created.value.accounts, l.source.key, l.mint.key, l.payer, l.recipients, payouts, decimals).Ok?
  {
    hide TokenError, RecordCreated, TokensPaid;
  }

  /** The payees are acceptable, frozen where nothing is due, when they are acceptable at all and the tokens can move. */
  lemma PayeesAndPayouts(env: Env, a: Accounts, metas: seq<Meta>, payouts: seq<nat>)
    requires |metas| == |payouts| + 8 && Sum(payouts) > 0
    ensures var n, recipients := |payouts|, metas[4..4 + |payouts|];
            var source, mint, record := metas[3].key, metas[4 + n].key, metas[5 + n].key;
            (&& (forall i :: 0 <= i < n ==> IsPayee(env, a, recipients[i], source, mint, record, payouts[i] == 0))
             && Holds(a, source, mint, false) && Units(a, source) >= Sum(payouts))
            <==> (&& (forall i :: 0 <= i < n ==> IsPayee(env, a, recipients[i], source, mint, record, true))
                  && CanMove(a, source, mint, metas[0], recipients, payouts))
  {
    var n, recipients := |payouts|, metas[4..4 + |payouts|];
    var source, mint, record := metas[3].key, metas[4 + n].key, metas[5 + n].key;
    forall i | 0 <= i < n
      ensures IsPayee(env, a, recipients[i], source, mint, record, payouts[i] == 0) <==>
              && IsPayee(env, a, recipients[i], source, mint, record, true)
              && (payouts[i] > 0 ==> Holds(a, recipients[i].key, mint, false))
    {}
  }

  /** After the record's creation the tokens can move exactly if they could before. */
  lemma MovesAfterCreation(env: Env, a: Accounts, b: Accounts, metas: seq<Meta>, decimals: byte, payouts: seq<nat>)
    requires |metas| == |payouts| + 8 && metas[0].isSigner
    requires forall k: Key :: At(b, k).token == At(a, k).token
    requires var n := |payouts|;
             && At(a, metas[4 + n].key).token == Mint(decimals, true)
             && Holds(a, metas[3].key, metas[4 + n].key, true) && At(a, metas[3].key).token.holder == metas[0].key
             && var recipients := metas[4..4 + n];
                forall i :: 0 <= i < n ==>
                  IsPayee(env, a, recipients[i], metas[3].key, metas[4 + n].key, metas[5 + n].key, true)
    ensures var n, recipients := |payouts|, metas[4..4 + |payouts|];
            TokensPaid(b, metas[3].key, metas[4 + n].key, metas[0], recipients, payouts, decimals).Ok? <==>
            CanMove(a, metas[3].key, metas[4 + n].key, metas[0], recipients, payouts)
  {
    hide TokensPaid;
    var n, recipients := |payouts|, metas[4..4 + |payouts|];
    TokensPaidIff(b, metas[3].key, metas[4 + n].key, metas[0], recipients, payouts, decimals);
  }
}

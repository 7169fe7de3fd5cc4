/**
  The settlement program as it runs: a bank whose accounts the instructions
  change in place, step by step. Each step is proved to have the outcome that
  module Program gives it.
 */
module Processor {
  import opened Basics
  import opened LittleEndian
  import opened Splits
  import opened Codec
  import opened Program

  /** Serialize a new namespace into its account's buffer. */
  method WriteNamespace(data: array<byte>, bump: byte, creator: Key, namespaceId: Key, authority: Key)
    returns (r: Result<(), ProgramError>)
    modifies data
    ensures data.Length != NAMESPACE_SIZE ==> r == Err(InvalidAccountData) && data[..] == old(data[..])
    ensures data.Length == NAMESPACE_SIZE ==>
              r == Ok(()) && data[..] == NamespaceData(bump, creator, namespaceId, authority)
  {
    if data.Length != NAMESPACE_SIZE {
      return Err(InvalidAccountData);
    }
    data[0] := 2;
    data[1] := bump;
    assert data[..2] == [2, bump];
    SetBytes(data, 2, creator);
    assert data[..34] == [2, bump] + creator;
    SetBytes(data, 34, namespaceId);
    assert data[..AUTHORITY_OFFSET] == [2, bump] + creator + namespaceId;
    ghost var head := data[..AUTHORITY_OFFSET];
    SetBytes(data, AUTHORITY_OFFSET, authority);
    assert data[..] == head + authority;
    return Ok(());
  }

  /** Write a settlement record into its account's buffer. */
  method WriteRecord(data: array<byte>, eventId: Key, amount: u64)
    requires data.Length == RECORD_SIZE
    modifies data
    ensures data[..] == RecordData(eventId, amount)
  {
    data[0] := 1;
    SetBytes(data, 1, eventId);
    assert data[..33] == [1] + eventId;
    ghost var head := data[..33];
    SetLittleEndian(data, 33, amount, 8);
    assert data[..] == head + Le(amount, 8);
  }

  /** Once a payment fails, so does the whole list. */
  lemma {:induction false} PaidFails(a: Accounts, payer: Meta, recipients: seq<Meta>, payouts: seq<nat>, i: nat)
    requires |recipients| == |payouts| && i <= |recipients|
    requires Paid(a, payer, recipients[..i], payouts[..i]).Err?
    ensures Paid(a, payer, recipients, payouts) == Paid(a, payer, recipients[..i], payouts[..i])
  {
    var n := |recipients|;
    if i == n {
      assert recipients[..i] == recipients && payouts[..i] == payouts;
    } else {
      assert recipients[..n - 1][..i] == recipients[..i] && payouts[..n - 1][..i] == payouts[..i];
      PaidFails(a, payer, recipients[..n - 1], payouts[..n - 1], i);
    }
  }

  lemma {:induction false} TokensPaidFails(a: Accounts, source: Key, mint: Key, payer: Meta, recipients: seq<Meta>,
                                           payouts: seq<nat>, decimals: byte, i: nat)
    requires |recipients| == |payouts| && i <= |recipients|
    requires TokensPaid(a, source, mint, payer, recipients[..i], payouts[..i], decimals).Err?
    ensures TokensPaid(a, source, mint, payer, recipients, payouts, decimals)
         == TokensPaid(a, source, mint, payer, recipients[..i], payouts[..i], decimals)
  {
    var n := |recipients|;
    if i == n {
      assert recipients[..i] == recipients && payouts[..i] == payouts;
    } else {
      assert recipients[..n - 1][..i] == recipients[..i] && payouts[..n - 1][..i] == payouts[..i];
      TokensPaidFails(a, source, mint, payer, recipients[..n - 1], payouts[..n - 1], decimals, i);
    }
  }

  lemma {:induction false} RecipientFails(a: Accounts, source: Key, record: Key, mint: Key, recipients: seq<Meta>, i: nat)
    requires i <= |recipients|
    requires RecipientError(a, source, record, mint, recipients[..i]).Some?
    ensures RecipientError(a, source, record, mint, recipients)
         == RecipientError(a, source, record, mint, recipients[..i])
  {
    var n := |recipients|;
    if i == n {
      assert recipients[..i] == recipients;
    } else {
      assert recipients[..n - 1][..i] == recipients[..i];
      RecipientFails(a, source, record, mint, recipients[..n - 1], i);
    }
  }

  class Bank {
    const env: Env
    var accounts: Accounts
    /** Instructions invoked so far, as the ledger will record them. */
    var inner: seq<Inner>

    constructor (env: Env, accounts: Accounts)
      ensures this.env == env && this.accounts == accounts && inner == []
    {
      this.env := env;
      this.accounts := accounts;
      inner := [];
    }

    /** The bank went from `before` and `log` to where it is now as `outcome` says. */
    ghost predicate Follows(outcome: Outcome, log: seq<Inner>, r: Result<(), ProgramError>)
      reads this
    {
      match outcome
      case Ok(effect) => r == Ok(()) && accounts == effect.accounts && inner == log + effect.inner
      case Err(e) => r == Err(e)
    }

    /** Run an invoked instruction. */
    method Invoke(outcome: Outcome) returns (r: Result<(), ProgramError>)
      modifies this`accounts, this`inner
      ensures Follows(outcome, old(inner), r)
      ensures r.Err? ==> accounts == old(accounts) && inner == old(inner)
    {
      match outcome
      case Err(e) => r := Err(e);
      case Ok(effect) =>
        accounts := effect.accounts;
        inner := inner + effect.inner;
        r := Ok(());
    }

    method Transfer(from: Meta, to: Meta, lamports: nat) returns (r: Result<(), ProgramError>)
      modifies this`accounts, this`inner
      ensures Follows(if lamports == 0 then Ok(Effect(old(accounts), [])) else Transferred(old(accounts), from, to, lamports),
                      old(inner), r)
    {
      if lamports == 0 {
        return Ok(());
      }
      r := Invoke(Transferred(accounts, from, to, lamports));
    }

    method CreateProgramAccount(payer: Meta, account: Meta, systemProgram: Meta, size: nat)
      returns (r: Result<(), ProgramError>)
      modifies this`accounts, this`inner
      ensures Follows(AccountCreated(env, old(accounts), payer, account, systemProgram, size), old(inner), r)
    {
      if !payer.isSigner {
        return Err(MissingRequiredSignature);
      }
      if !payer.isWritable || !account.isWritable {
        return Err(InvalidAccountData);
      }
      if systemProgram.key != SYSTEM_PROGRAM {
        return Err(IncorrectProgramId);
      }
      var current := At(accounts, account.key);
      if current.owner == env.programId || current.data != [] {
        return Err(AccountAlreadyInitialized);
      }
      if current.owner != SYSTEM_PROGRAM {
        return Err(InvalidAccountData);
      }
      var required := env.rent(size);
      var shortfall := if current.lamports < required then required - current.lamports else 0;
      if shortfall > 0 {
        r := Transfer(payer, account, shortfall);
        if r.Err? {
          return;
        }
      }
      ghost var funded := accounts;
      accounts := accounts[account.key := At(accounts, account.key).(data := Zeros(size))];
      inner := inner + [Allocate(account.key, size)];
      accounts := accounts[account.key := At(accounts, account.key).(owner := env.programId)];
      inner := inner + [Assign(account.key, env.programId)];
      assert accounts == funded[account.key := At(funded, account.key).(data := Zeros(size), owner := env.programId)];
      return Ok(());
    }

    /** An account's buffer, for writing in place. */
    method Borrow(key: Key) returns (data: array<byte>)
      ensures fresh(data) && data[..] == At(accounts, key).data
    {
      var bytes := At(accounts, key).data;
      data := new byte[|bytes|](i requires 0 <= i < |bytes| => bytes[i]);
    }

    method Release(key: Key, data: array<byte>)
      modifies this`accounts
      ensures accounts == WithData(old(accounts), key, data[..])
    {
      accounts := accounts[key := At(accounts, key).(data := data[..])];
    }

    method CreateNamespace(metas: seq<Meta>, namespaceId: Key, authority: Key) returns (r: Result<(), ProgramError>)
      modifies this`accounts, this`inner
      ensures Follows(NamespaceCreated(env, old(accounts), metas, namespaceId, authority), old(inner), r)
    {
      if |metas| != 4 {
        return Err(NotEnoughAccountKeys);
      }
      var payer, creator, namespace, systemProgram := metas[0], metas[1], metas[2], metas[3];
      if !creator.isSigner {
        return Err(MissingRequiredSignature);
      }
      if authority == SYSTEM_PROGRAM {
        return Err(InvalidArgument);
      }
      var seeds := NamespaceSeeds(creator.key, namespaceId);
      if namespace.key != env.find(seeds) {
        return Err(InvalidSeeds);
      }
      r := CreateProgramAccount(payer, namespace, systemProgram, NAMESPACE_SIZE);
      if r.Err? {
        return;
      }
      var data := Borrow(namespace.key);
      r := WriteNamespace(data, env.bump(seeds), creator.key, namespaceId, authority);
      Release(namespace.key, data);
    }

    method Authorize(authority: Meta, namespace: Meta) returns (r: Result<(), ProgramError>)
      ensures match AuthorizeError(env, accounts, authority, namespace.key)
              case None => r == Ok(())
              case Some(e) => r == Err(e)
    {
      if !authority.isSigner {
        return Err(MissingRequiredSignature);
      }
      if At(accounts, namespace.key).owner != env.programId {
        return Err(IllegalOwner);
      }
      var current := NamespaceAuthority(At(accounts, namespace.key).data);
      if current.None? {
        return Err(InvalidAccountData);
      }
      if current.value != authority.key {
        return Err(IncorrectAuthority);
      }
      return Ok(());
    }

    method SetNamespaceAuthority(metas: seq<Meta>, newAuthority: Key) returns (r: Result<(), ProgramError>)
      modifies this`accounts, this`inner
      ensures Follows(AuthoritySet(env, old(accounts), metas, newAuthority), old(inner), r)
    {
      if |metas| != 3 {
        return Err(NotEnoughAccountKeys);
      }
      var authority, namespace, newAuthorityAccount := metas[0], metas[1], metas[2];
      if !namespace.isWritable {
        return Err(InvalidAccountData);
      }
      r := Authorize(authority, namespace);
      if r.Err? {
        return;
      }
      if newAuthority == SYSTEM_PROGRAM || newAuthorityAccount.key != newAuthority {
        return Err(InvalidArgument);
      }
      if !newAuthorityAccount.isSigner {
        return Err(MissingRequiredSignature);
      }
      var data := Borrow(namespace.key);
      assert data.Length == NAMESPACE_SIZE;
      SetBytes(data, AUTHORITY_OFFSET, newAuthority);
      assert data[..] == At(accounts, namespace.key).data[..AUTHORITY_OFFSET] + newAuthority;
      Release(namespace.key, data);
    }

    method CreateRecord(payer: Meta, namespace: Key, record: Meta, systemProgram: Meta, eventId: Key, amount: u64)
      returns (r: Result<(), ProgramError>)
      modifies this`accounts, this`inner
      ensures Follows(RecordCreated(env, old(accounts), payer, namespace, record, systemProgram, eventId, amount),
                      old(inner), r)
    {
      if record.key != RecordAddress(env, namespace, eventId) {
        return Err(InvalidSeeds);
      }
      r := CreateProgramAccount(payer, record, systemProgram, RECORD_SIZE);
      if r.Err? {
        return;
      }
      var data := Borrow(record.key);
      WriteRecord(data, eventId, amount);
      Release(record.key, data);
    }

    method PayRecipients(payer: Meta, recipients: seq<Meta>, payouts: seq<nat>) returns (r: Result<(), ProgramError>)
      requires |recipients| == |payouts|
      modifies this`accounts, this`inner
      ensures Follows(Paid(old(accounts), payer, recipients, payouts), old(inner), r)
    {
      r := Ok(());
      for i := 0 to |recipients|
        invariant Follows(Paid(old(accounts), payer, recipients[..i], payouts[..i]), old(inner), r)
        invariant r.Ok?
      {
        assert recipients[..i + 1][..i] == recipients[..i] && payouts[..i + 1][..i] == payouts[..i];
        r := Transfer(payer, recipients[i], payouts[i]);
        if r.Err? {
          PaidFails(old(accounts), payer, recipients, payouts, i + 1);
          return;
        }
      }
      assert recipients[..|recipients|] == recipients && payouts[..|recipients|] == payouts;
    }

    method Settle(metas: seq<Meta>, eventId: Key, amount: u64, payouts: seq<nat>) returns (r: Result<(), ProgramError>)
      modifies this`accounts, this`inner
      ensures Follows(Settled(env, old(accounts), metas, eventId, amount, payouts), old(inner), r)
    {
      hide RecordCreated, Paid, AuthorizeError;
      var count := |payouts|;
      if |metas| != count + 5 {
        return Err(NotEnoughAccountKeys);
      }
      var payer, authority, namespace := metas[0], metas[1], metas[2];
      var recipients := metas[3..3 + count];
      var record, systemProgram := metas[3 + count], metas[4 + count];
      assert ListingOf(metas, count) == Listing(payer, authority, namespace, recipients, record, systemProgram);
      r := Authorize(authority, namespace);
      if r.Err? {
        return;
      }
      if exists i :: 0 <= i < count && !recipients[i].isWritable {
        return Err(InvalidAccountData);
      }
      if exists i :: 0 <= i < count
                     && (recipients[i].key == record.key || At(accounts, recipients[i].key).owner == env.programId) {
        return Err(InvalidArgument);
      }
      r := CreateRecord(payer, namespace.key, record, systemProgram, eventId, amount);
      if r.Err? {
        return;
      }
      r := PayRecipients(payer, recipients, payouts);
    }

    method CheckRecipients(source: Key, record: Key, mint: Key, recipients: seq<Meta>) returns (r: Result<(), ProgramError>)
      ensures match RecipientError(accounts, source, record, mint, recipients)
              case None => r == Ok(())
              case Some(e) => r == Err(e)
    {
      for i := 0 to |recipients|
        invariant RecipientError(accounts, source, record, mint, recipients[..i]).None?
      {
        assert recipients[..i + 1][..i] == recipients[..i];
        var key := recipients[i].key;
        if key == source || key == record {
          RecipientFails(accounts, source, record, mint, recipients, i + 1);
          return Err(InvalidArgument);
        }
        if HoldingError(At(accounts, key).token).Some? {
          RecipientFails(accounts, source, record, mint, recipients, i + 1);
          return Err(HoldingError(At(accounts, key).token).value);
        }
        if At(accounts, key).token.mint != mint {
          RecipientFails(accounts, source, record, mint, recipients, i + 1);
          return Err(InvalidAccountData);
        }
      }
      assert recipients[..|recipients|] == recipients;
      return Ok(());
    }

    method PayTokens(source: Key, mint: Key, payer: Meta, recipients: seq<Meta>, payouts: seq<nat>, decimals: byte)
      returns (r: Result<(), ProgramError>)
      requires |recipients| == |payouts|
      modifies this`accounts, this`inner
      ensures Follows(TokensPaid(old(accounts), source, mint, payer, recipients, payouts, decimals), old(inner), r)
    {
      r := Ok(());
      for i := 0 to |recipients|
        invariant Follows(TokensPaid(old(accounts), source, mint, payer, recipients[..i], payouts[..i], decimals),
                          old(inner), r)
        invariant r.Ok?
      {
        assert recipients[..i + 1][..i] == recipients[..i] && payouts[..i + 1][..i] == payouts[..i];
        if payouts[i] == 0 {
          continue;
        }
        r := Invoke(TokensMoved(accounts, source, mint, recipients[i].key, payer, payouts[i], decimals));
        if r.Err? {
          TokensPaidFails(old(accounts), source, mint, payer, recipients, payouts, decimals, i + 1);
          return;
        }
      }
      assert recipients[..|recipients|] == recipients && payouts[..|recipients|] == payouts;
    }

    method CheckTokenAccounts(l: TokenListing, decimals: byte) returns (r: Result<(), ProgramError>)
      ensures match TokenError(env, accounts, l, decimals)
              case None => r == Ok(())
              case Some(e) => r == Err(e)
    {
      if l.tokenProgram.key != env.tokenProgram {
        return Err(IncorrectProgramId);
      }
      r := Authorize(l.authority, l.namespace);
      if r.Err? {
        return;
      }
      if !l.source.isWritable || exists i :: 0 <= i < |l.recipients| && !l.recipients[i].isWritable {
        return Err(InvalidAccountData);
      }
      var from, minted := At(accounts, l.source.key), At(accounts, l.mint.key);
      if from.owner != env.tokenProgram || minted.owner != env.tokenProgram
         || exists i :: 0 <= i < |l.recipients| && At(accounts, l.recipients[i].key).owner != env.tokenProgram {
        return Err(IllegalOwner);
      }
      if !minted.token.Mint? {
        return Err(InvalidAccountData);
      }
      if !minted.token.initialized {
        return Err(UninitializedAccount);
      }
      if minted.token.decimals != decimals {
        return Err(InvalidAccountData);
      }
      if HoldingError(from.token).Some? {
        return Err(HoldingError(from.token).value);
      }
      if from.token.mint != l.mint.key || from.token.holder != l.payer.key {
        return Err(InvalidAccountData);
      }
      r := CheckRecipients(l.source.key, l.record.key, l.mint.key, l.recipients);
    }

    method SettleToken(metas: seq<Meta>, eventId: Key, amount: u64, decimals: byte, payouts: seq<nat>)
      returns (r: Result<(), ProgramError>)
      modifies this`accounts, this`inner
      ensures Follows(TokensSettled(env, old(accounts), metas, eventId, amount, decimals, payouts), old(inner), r)
    {
      hide TokenError, RecordCreated, TokensPaid;
      if |metas| != |payouts| + 8 {
        return Err(NotEnoughAccountKeys);
      }
      var l := TokenListingOf(metas, |payouts|);
      r := CheckTokenAccounts(l, decimals);
      if r.Err? {
        return;
      }
      r := CreateRecord(l.payer, l.namespace.key, l.record, l.systemProgram, eventId, amount);
      if r.Err? {
        return;
      }
      r := PayTokens(l.source.key, l.mint.key, l.payer, l.recipients, payouts, decimals);
    }

    /** Run one instruction; the runtime undoes a failing one whole. */
    method ProcessInstruction(metas: seq<Meta>, data: seq<byte>) returns (r: Result<(), ProgramError>)
      modifies this`accounts, this`inner
      ensures Follows(Process(env, old(accounts), metas, data), old(inner), r)
      ensures r.Err? ==> accounts == old(accounts) && inner == old(inner)
    {
      var before, log := accounts, inner;
      r := Dispatch(metas, data);
      if r.Err? {
        accounts, inner := before, log;
      }
    }

    method Dispatch(metas: seq<Meta>, data: seq<byte>) returns (r: Result<(), ProgramError>)
      modifies this`accounts, this`inner
      ensures Follows(Process(env, old(accounts), metas, data), old(inner), r)
    {
      match Unpack(data)
      case None => r := Err(InvalidInstructionData);
      case Some(CreateNamespace(namespaceId, authority)) => r := CreateNamespace(metas, namespaceId, authority);
      case Some(SetNamespaceAuthority(newAuthority)) => r := SetNamespaceAuthority(metas, newAuthority);
      case Some(SettleN(eventId, amount, bps)) =>
        var payouts := new u64[|bps|];
        var split := SplitShares(amount, bps, payouts);
        if split.Err? {
          return Err(InvalidArgument);
        }
        r := Settle(metas, eventId, amount, payouts[..]);
      case Some(SettleTokenN(eventId, amount, decimals, bps)) =>
        var payouts := new u64[|bps|];
        var split := SplitShares(amount, bps, payouts);
        if split.Err? {
          return Err(InvalidArgument);
        }
        r := SettleToken(metas, eventId, amount, decimals, payouts[..]);
    }
  }
}

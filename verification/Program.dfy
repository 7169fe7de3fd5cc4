/**
  The settlement program as functions on the accounts it reads and writes. A
  result `Err` is an instruction that failed, which the runtime undoes whole.
 */
module Program {
  import opened Basics
  import opened LittleEndian
  import opened Splits
  import opened Codec

  datatype ProgramError =
    | InvalidInstructionData
    | InvalidArgument
    | NotEnoughAccountKeys
    | MissingRequiredSignature
    | InvalidSeeds
    | InvalidAccountData
    | IllegalOwner
    | IncorrectAuthority
    | IncorrectProgramId
    | AccountAlreadyInitialized
    | UninitializedAccount
    | Runtime  // an invoked instruction failed

  /** What the token program reads from the data of an account it owns. */
  datatype Token =
    | NoToken
    | Mint(decimals: byte, initialized: bool)
    | Holding(mint: Key, holder: Key, amount: nat, frozen: bool)
    | Unopened  // the size of a holding, but not initialised

  datatype Account = Account(owner: Key, lamports: nat, data: seq<byte>, token: Token)

  type Accounts = map<Key, Account>

  /** An account as an instruction lists it. */
  datatype Meta = Meta(key: Key, isSigner: bool, isWritable: bool)

  /** An instruction the program invoked, as the ledger records it. */
  datatype Inner =
    | LamportTransfer(source: Key, destination: Key, lamports: nat)
    | Allocate(account: Key, size: nat)
    | Assign(account: Key, owner: Key)
    | TokenTransfer(source: Key, mint: Key, destination: Key, amount: nat, decimals: byte)

  datatype Effect = Effect(accounts: Accounts, inner: seq<Inner>)

  type Outcome = Result<Effect, ProgramError>

  /**
    What the program runs against: its own id, the token program's, address
    derivation from concatenated seeds, and rent. Nothing is assumed of
    `find` beyond being a function.
   */
  datatype Env = Env(programId: Key, tokenProgram: Key,
                     find: seq<byte> -> Key, bump: seq<byte> -> byte, rent: nat -> nat)
  {
    ghost predicate Valid() {
      programId != SYSTEM_PROGRAM && tokenProgram != SYSTEM_PROGRAM && programId != tokenProgram
    }
  }

  /** The system program's id is the all-zero key; nobody can sign for it. */
  const SYSTEM_PROGRAM: Key := Zeros(32)

  const RECORD_SIZE: nat := 41
  const NAMESPACE_SIZE: nat := 98
  const AUTHORITY_OFFSET: nat := 66

  /** Every address has an account; one never written is a system account with nothing in it. */
  function At(accounts: Accounts, key: Key): Account {
    if key in accounts then accounts[key] else Account(SYSTEM_PROGRAM, 0, [], NoToken)
  }

  // ----- Addresses and layouts -----

  const SETTLEMENT_SEED: seq<byte> := [115, 101, 116, 116, 108, 101, 109, 101, 110, 116]
  const NAMESPACE_SEED: seq<byte> := [110, 97, 109, 101, 115, 112, 97, 99, 101]

  function RecordSeeds(namespace: Key, eventId: Key): seq<byte> {
    SETTLEMENT_SEED + namespace + eventId
  }

  function NamespaceSeeds(creator: Key, namespaceId: Key): seq<byte> {
    NAMESPACE_SEED + creator + namespaceId
  }

  function RecordAddress(env: Env, namespace: Key, eventId: Key): Key {
    env.find(RecordSeeds(namespace, eventId))
  }

  function NamespaceAddress(env: Env, creator: Key, namespaceId: Key): Key {
    env.find(NamespaceSeeds(creator, namespaceId))
  }

  function RecordData(eventId: Key, amount: u64): (d: seq<byte>)
    ensures |d| == RECORD_SIZE
  {
    [1] + eventId + Le(amount, 8)
  }

  function NamespaceData(bump: byte, creator: Key, namespaceId: Key, authority: Key): (d: seq<byte>)
    ensures |d| == NAMESPACE_SIZE
  {
    [2, bump] + creator + namespaceId + authority
  }

  function NamespaceAuthority(data: seq<byte>): Option<Key> {
    if |data| != NAMESPACE_SIZE || data[0] != 2 then None else Some(data[AUTHORITY_OFFSET..])
  }

  // ----- Instructions of other programs -----

  /** A system-program transfer. Only a system account without data can be debited. */
  function Transferred(accounts: Accounts, from: Meta, to: Meta, lamports: nat): Outcome {
    var source := At(accounts, from.key);
    if !from.isSigner || !from.isWritable || !to.isWritable then Err(Runtime)
    else if source.data != [] || source.owner != SYSTEM_PROGRAM || source.lamports < lamports then Err(Runtime)
    else
      var debited := accounts[from.key := source.(lamports := source.lamports - lamports)];
      var target := At(debited, to.key);
      Ok(Effect(debited[to.key := target.(lamports := target.lamports + lamports)],
                [LamportTransfer(from.key, to.key, lamports)]))
  }

  /** The token program's checked transfer, for the source's holder. */
  function TokensMoved(accounts: Accounts, source: Key, mint: Key, destination: Key, authority: Meta,
                       amount: nat, decimals: byte): Outcome
  {
    var from, to, m := At(accounts, source), At(accounts, destination), At(accounts, mint);
    if !from.token.Holding? || !to.token.Holding? || !m.token.Mint? then Err(Runtime)
    else if from.token.frozen || to.token.frozen || from.token.amount < amount then Err(Runtime)
    else if from.token.mint != mint || to.token.mint != mint || m.token.decimals != decimals then Err(Runtime)
    else if from.token.holder != authority.key || !authority.isSigner then Err(Runtime)
    else
      var debited := accounts[source := from.(token := from.token.(amount := from.token.amount - amount))];
      var target := At(debited, destination);
      if !target.token.Holding? then Err(Runtime)
      else
        Ok(Effect(debited[destination := target.(token := target.token.(amount := target.token.amount + amount))],
                  [TokenTransfer(source, mint, destination, amount, decimals)]))
  }

  // ----- The program -----

  function Then(first: Outcome, next: Accounts --> Outcome): Outcome
    requires first.Ok? ==> next.requires(first.value.accounts)
  {
    match first
    case Err(e) => Err(e)
    case Ok(effect) =>
      match next(effect.accounts)
      case Err(e) => Err(e)
      case Ok(last) => Ok(Effect(last.accounts, effect.inner + last.inner))
  }

  function Shortfall(env: Env, accounts: Accounts, key: Key, size: nat): nat {
    var required := env.rent(size);
    if At(accounts, key).lamports < required then required - At(accounts, key).lamports else 0
  }

  /** Top up, allocate and assign: the address keeps whatever lamports it already holds. */
  function AccountCreated(env: Env, accounts: Accounts, payer: Meta, account: Meta, systemProgram: Meta, size: nat)
    : Outcome
  {
    if !payer.isSigner then Err(MissingRequiredSignature)
    else if !payer.isWritable || !account.isWritable then Err(InvalidAccountData)
    else if systemProgram.key != SYSTEM_PROGRAM then Err(IncorrectProgramId)
    else if At(accounts, account.key).owner == env.programId || At(accounts, account.key).data != [] then
      Err(AccountAlreadyInitialized)
    else if At(accounts, account.key).owner != SYSTEM_PROGRAM then Err(InvalidAccountData)
    else
      var shortfall := Shortfall(env, accounts, account.key, size);
      var funded := if shortfall > 0 then Transferred(accounts, payer, account, shortfall)
                    else Ok(Effect(accounts, []));
      match funded
      case Err(e) => Err(e)
      case Ok(effect) =>
        var created := At(effect.accounts, account.key).(data := Zeros(size), owner := env.programId);
        Ok(Effect(effect.accounts[account.key := created],
                  effect.inner + [Allocate(account.key, size), Assign(account.key, env.programId)]))
  }

  function WithData(accounts: Accounts, key: Key, data: seq<byte>): Accounts {
    accounts[key := At(accounts, key).(data := data)]
  }

  function NamespaceCreated(env: Env, accounts: Accounts, metas: seq<Meta>, namespaceId: Key, authority: Key): Outcome {
    if |metas| != 4 then Err(NotEnoughAccountKeys)
    else
      var payer, creator, namespace, systemProgram := metas[0], metas[1], metas[2], metas[3];
      var seeds := NamespaceSeeds(creator.key, namespaceId);
      if !creator.isSigner then Err(MissingRequiredSignature)
      else if authority == SYSTEM_PROGRAM then Err(InvalidArgument)
      else if namespace.key != env.find(seeds) then Err(InvalidSeeds)
      else
        match AccountCreated(env, accounts, payer, namespace, systemProgram, NAMESPACE_SIZE)
        case Err(e) => Err(e)
        case Ok(effect) =>
          var data := NamespaceData(env.bump(seeds), creator.key, namespaceId, authority);
          Ok(effect.(accounts := WithData(effect.accounts, namespace.key, data)))
  }

  /** `None` when `authority` signed and is the namespace's current authority. */
  function AuthorizeError(env: Env, accounts: Accounts, authority: Meta, namespace: Key): Option<ProgramError> {
    if !authority.isSigner then Some(MissingRequiredSignature)
    else if At(accounts, namespace).owner != env.programId then Some(IllegalOwner)
    else
      match NamespaceAuthority(At(accounts, namespace).data)
      case None => Some(InvalidAccountData)
      case Some(current) => if current != authority.key then Some(IncorrectAuthority) else None
  }

  function AuthoritySet(env: Env, accounts: Accounts, metas: seq<Meta>, newAuthority: Key): Outcome {
    if |metas| != 3 then Err(NotEnoughAccountKeys)
    else
      var authority, namespace, next := metas[0], metas[1], metas[2];
      if !namespace.isWritable then Err(InvalidAccountData)
      else
        match AuthorizeError(env, accounts, authority, namespace.key)
        case Some(e) => Err(e)
        case None =>
          if newAuthority == SYSTEM_PROGRAM || next.key != newAuthority then Err(InvalidArgument)
          else if !next.isSigner then Err(MissingRequiredSignature)
          else
            var data := At(accounts, namespace.key).data[..AUTHORITY_OFFSET] + newAuthority;
            Ok(Effect(WithData(accounts, namespace.key, data), []))
  }

  function RecordCreated(env: Env, accounts: Accounts, payer: Meta, namespace: Key, record: Meta,
                         systemProgram: Meta, eventId: Key, amount: u64): Outcome
  {
    if record.key != RecordAddress(env, namespace, eventId) then Err(InvalidSeeds)
    else
      match AccountCreated(env, accounts, payer, record, systemProgram, RECORD_SIZE)
      case Err(e) => Err(e)
      case Ok(effect) =>
        Ok(effect.(accounts := WithData(effect.accounts, record.key, RecordData(eventId, amount))))
  }

  /** Pay in order, skipping zero payouts. */
  function Paid(accounts: Accounts, payer: Meta, recipients: seq<Meta>, payouts: seq<nat>): Outcome
    requires |recipients| == |payouts|
  {
    if recipients == [] then Ok(Effect(accounts, []))
    else
      var n := |recipients| - 1;
      Then(Paid(accounts, payer, recipients[..n], payouts[..n]),
           (middle: Accounts) =>
             if payouts[n] == 0 then Ok(Effect(middle, []))
             else Transferred(middle, payer, recipients[n], payouts[n]))
  }

  function TokensPaid(accounts: Accounts, source: Key, mint: Key, payer: Meta, recipients: seq<Meta>,
                      payouts: seq<nat>, decimals: byte): Outcome
    requires |recipients| == |payouts|
  {
    if recipients == [] then Ok(Effect(accounts, []))
    else
      var n := |recipients| - 1;
      Then(TokensPaid(accounts, source, mint, payer, recipients[..n], payouts[..n], decimals),
           (middle: Accounts) =>
             if payouts[n] == 0 then Ok(Effect(middle, []))
             else TokensMoved(middle, source, mint, recipients[n].key, payer, payouts[n], decimals))
  }

  /** The accounts of a native settlement, by name. */
  datatype Listing = Listing(payer: Meta, authority: Meta, namespace: Meta, recipients: seq<Meta>,
                             record: Meta, systemProgram: Meta)

  function ListingOf(metas: seq<Meta>, count: nat): Listing
    requires |metas| == count + 5
  {
    Listing(metas[0], metas[1], metas[2], metas[3..3 + count], metas[3 + count], metas[4 + count])
  }

  function Settled(env: Env, accounts: Accounts, metas: seq<Meta>, eventId: Key, amount: u64, payouts: seq<nat>)
    : Outcome
  {
    if |metas| != |payouts| + 5 then Err(NotEnoughAccountKeys)
    else SettledWith(env, accounts, ListingOf(metas, |payouts|), eventId, amount, payouts)
  }

  function SettledWith(env: Env, accounts: Accounts, l: Listing, eventId: Key, amount: u64, payouts: seq<nat>): Outcome
    requires |l.recipients| == |payouts|
  {
    match AuthorizeError(env, accounts, l.authority, l.namespace.key)
    case Some(e) => Err(e)
    case None =>
      if exists i :: 0 <= i < |l.recipients| && !l.recipients[i].isWritable then Err(InvalidAccountData)
      else if exists i :: 0 <= i < |l.recipients|
                          && (l.recipients[i].key == l.record.key
                              || At(accounts, l.recipients[i].key).owner == env.programId) then Err(InvalidArgument)
      else
        Then(RecordCreated(env, accounts, l.payer, l.namespace.key, l.record, l.systemProgram, eventId, amount),
             (middle: Accounts) => Paid(middle, l.payer, l.recipients, payouts))
  }

  /** `None` when the account reads as an initialised holding. */
  function HoldingError(token: Token): Option<ProgramError> {
    match token
    case Holding(_, _, _, _) => None
    case Unopened => Some(UninitializedAccount)
    case _ => Some(InvalidAccountData)
  }

  /** `None` when every recipient is another account holding the mint. */
  function RecipientError(accounts: Accounts, source: Key, record: Key, mint: Key, recipients: seq<Meta>)
    : Option<ProgramError>
  {
    if recipients == [] then None
    else
      var n := |recipients| - 1;
      match RecipientError(accounts, source, record, mint, recipients[..n])
      case Some(e) => Some(e)
      case None =>
        var r := recipients[n].key;
        if r == source || r == record then Some(InvalidArgument)
        else if HoldingError(At(accounts, r).token).Some? then HoldingError(At(accounts, r).token)
        else if At(accounts, r).token.mint != mint then Some(InvalidAccountData)
        else None
  }

  /** The accounts of a token settlement, by name. */
  datatype TokenListing = TokenListing(payer: Meta, authority: Meta, namespace: Meta, source: Meta, recipients: seq<Meta>,
                                       mint: Meta, record: Meta, systemProgram: Meta, tokenProgram: Meta)

  function TokenListingOf(metas: seq<Meta>, count: nat): TokenListing
    requires |metas| == count + 8
  {
    TokenListing(metas[0], metas[1], metas[2], metas[3], metas[4..4 + count],
                 metas[4 + count], metas[5 + count], metas[6 + count], metas[7 + count])
  }

  /** `None` when every account of a token settlement is what it must be. */
  function TokenError(env: Env, accounts: Accounts, l: TokenListing, decimals: byte): Option<ProgramError> {
    var from, minted := At(accounts, l.source.key), At(accounts, l.mint.key);
    if l.tokenProgram.key != env.tokenProgram then Some(IncorrectProgramId)
    else if AuthorizeError(env, accounts, l.authority, l.namespace.key).Some? then
      AuthorizeError(env, accounts, l.authority, l.namespace.key)
    else if !l.source.isWritable || exists i :: 0 <= i < |l.recipients| && !l.recipients[i].isWritable then
      Some(InvalidAccountData)
    else if from.owner != env.tokenProgram || minted.owner != env.tokenProgram
            || exists i :: 0 <= i < |l.recipients|
                           && At(accounts, l.recipients[i].key).owner != env.tokenProgram then Some(IllegalOwner)
    else if !minted.token.Mint? then Some(InvalidAccountData)
    else if !minted.token.initialized then Some(UninitializedAccount)
    else if minted.token.decimals != decimals then Some(InvalidAccountData)
    else if HoldingError(from.token).Some? then HoldingError(from.token)
    else if from.token.mint != l.mint.key || from.token.holder != l.payer.key then Some(InvalidAccountData)
    else RecipientError(accounts, l.source.key, l.record.key, l.mint.key, l.recipients)
  }

  function TokensSettled(env: Env, accounts: Accounts, metas: seq<Meta>, eventId: Key, amount: u64,
                         decimals: byte, payouts: seq<nat>): Outcome
  {
    if |metas| != |payouts| + 8 then Err(NotEnoughAccountKeys)
    else
      var l := TokenListingOf(metas, |payouts|);
      match TokenError(env, accounts, l, decimals)
      case Some(e) => Err(e)
      case None =>
        Then(RecordCreated(env, accounts, l.payer, l.namespace.key, l.record, l.systemProgram, eventId, amount),
             (middle: Accounts) =>
               TokensPaid(middle, l.source.key, l.mint.key, l.payer, l.recipients, payouts, decimals))
  }

  /** The payouts of a valid split, as naturals. */
  function SharesOf(amount: u64, bps: seq<u16>): (r: Result<seq<nat>, SplitError>)
    ensures r.Ok? <==> Split(amount, bps).Ok?
    ensures r.Ok? ==> r.value == Split(amount, bps).value && |r.value| == |bps|
  {
    match Split(amount, bps)
    case Err(e) => Err(e)
    case Ok(payouts) =>
      SplitIsFair(amount, bps);
      assert forall p <- payouts :: p >= 0;
      Ok(payouts)
  }

  /** One instruction of the program. */
  function Process(env: Env, accounts: Accounts, metas: seq<Meta>, data: seq<byte>): Outcome {
    match Unpack(data)
    case None => Err(InvalidInstructionData)
    case Some(CreateNamespace(namespaceId, authority)) =>
      NamespaceCreated(env, accounts, metas, namespaceId, authority)
    case Some(SetNamespaceAuthority(newAuthority)) => AuthoritySet(env, accounts, metas, newAuthority)
    case Some(SettleN(eventId, amount, bps)) =>
      (match SharesOf(amount, bps)
       case Err(_) => Err(InvalidArgument)
       case Ok(payouts) => Settled(env, accounts, metas, eventId, amount, payouts))
    case Some(SettleTokenN(eventId, amount, decimals, bps)) =>
      (match SharesOf(amount, bps)
       case Err(_) => Err(InvalidArgument)
       case Ok(payouts) => TokensSettled(env, accounts, metas, eventId, amount, decimals, payouts))
  }
}

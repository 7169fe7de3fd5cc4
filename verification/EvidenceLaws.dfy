/** The evidence pipeline against the program: it accepts exactly what the program did. */
module EvidenceLaws {
  import opened Basics
  import opened Splits
  import opened Codec
  import opened Program
  import opened Accounting
  import opened Runs
  import opened Text
  import opened Evidence
  import opened Cluster

  // ----- What an honest endpoint answers about a landed transaction -----

  function KeysIn(metas: seq<Meta>): (keys: seq<Key>)
    ensures |keys| == |metas|
  {
    seq(|metas|, i requires 0 <= i < |metas| => metas[i].key)
  }

  function RenderLogged(env: Env, logged: Logged): RpcInstruction {
    match logged
    case Ran(LamportTransfer(source, destination, lamports)) =>
      Decoded(SYSTEM_PROGRAM, SystemTransfer(Base58(source), Base58(destination), lamports))
    case Ran(Allocate(_, _)) => Decoded(SYSTEM_PROGRAM, OtherParsed)
    case Ran(Assign(_, _)) => Decoded(SYSTEM_PROGRAM, OtherParsed)
    case Ran(TokenTransfer(_, _, _, _, _)) => Decoded(env.tokenProgram, OtherParsed)
    case Invoked(metas, data, _) => Raw(env.programId, KeysIn(metas), Some(data))
  }

  function RenderLog(env: Env, log: seq<Logged>): (r: seq<RpcInstruction>)
    ensures |r| == |log|
  {
    seq(|log|, i requires 0 <= i < |log| => RenderLogged(env, log[i]))
  }

  /** One group per instruction that invoked something. */
  function RenderGroups(env: Env, logs: seq<seq<Logged>>): seq<Group> {
    if logs == [] then []
    else
      var n := |logs| - 1;
      RenderGroups(env, logs[..n]) + if logs[n] == [] then [] else [Group(n, RenderLog(env, logs[n]))]
  }

  function RenderTop(client: Client, instruction: TxInstruction): RpcInstruction {
    match instruction
    case Call(metas, data) => Raw(client.env.programId, KeysIn(metas), Some(data))
    case Note(fields) => Decoded(client.memoProgram, MemoText(fields))
    case Foreign(programId, _) => Raw(programId, [], Some([]))
  }

  function RenderAll(client: Client, instructions: seq<TxInstruction>): (r: seq<RpcInstruction>)
    ensures |r| == |instructions|
  {
    seq(|instructions|, i requires 0 <= i < |instructions| => RenderTop(client, instructions[i]))
  }

  ghost predicate WellTyped(client: Client, instructions: seq<TxInstruction>) {
    forall i :: 0 <= i < |instructions| && instructions[i].Foreign? ==>
                  instructions[i].programId != client.env.programId && instructions[i].programId != client.memoProgram
  }

  ghost predicate ClientValid(client: Client) {
    client.env.Valid() && client.memoProgram != client.env.programId
  }

  ghost predicate Honest(client: Client, answer: RpcTransaction, landing: Landing) {
    && answer.signatures != [] && answer.signatures[0] == landing.tx.signature
    && answer.succeeded == landing.outcome.Some?
    && answer.instructions == RenderAll(client, landing.tx.instructions)
    && (landing.outcome.Some? ==> answer.inner == RenderGroups(client.env, landing.outcome.value.logs))
  }

  // ----- Reading the groups back -----

  lemma {:induction false} GroupAtAppend(groups: seq<Group>, last: Group, index: nat)
    ensures GroupAt(groups + [last], index) ==
            if GroupAt(groups, index).Some? then GroupAt(groups, index)
            else if last.index == index then Some(last.instructions) else None
  {
    if groups != [] {
      assert (groups + [last])[1..] == groups[1..] + [last];
      GroupAtAppend(groups[1..], last, index);
    }
  }

  lemma {:induction false} GroupOf(env: Env, logs: seq<seq<Logged>>, index: nat)
    ensures GroupAt(RenderGroups(env, logs), index) ==
            if index < |logs| && logs[index] != [] then Some(RenderLog(env, logs[index])) else None
  {
    if logs != [] {
      var n := |logs| - 1;
      GroupOf(env, logs[..n], index);
      if logs[n] != [] {
        GroupAtAppend(RenderGroups(env, logs[..n]), Group(n, RenderLog(env, logs[n])), index);
      } else {
        assert RenderGroups(env, logs) == RenderGroups(env, logs[..n]);
      }
    }
  }

  // ----- The transfers of a settlement -----

  function TransfersIn(inner: seq<Inner>): seq<Transfer> {
    if inner == [] then []
    else
      var n := |inner| - 1;
      TransfersIn(inner[..n])
      + if inner[n].LamportTransfer?
        then [Transfer(Base58(inner[n].source), Base58(inner[n].destination), inner[n].lamports)] else []
  }

  /** Every lamport transfer is small enough for the endpoint's numbers. */
  ghost predicate SafeAmounts(inner: seq<Inner>) {
    forall i :: 0 <= i < |inner| && inner[i].LamportTransfer? ==> inner[i].lamports <= MAX_SAFE_INTEGER
  }

  lemma {:induction false} TransfersRead(env: Env, inner: seq<Inner>)
    ensures SystemTransfers(RenderLog(env, LogOf(inner)))
         == if SafeAmounts(inner) then Some(TransfersIn(inner)) else None
  {
    if inner != [] {
      var n := |inner| - 1;
      TransfersRead(env, inner[..n]);
      SafePrefix(inner);
      var rendered := RenderLog(env, LogOf(inner));
      assert rendered[..n] == RenderLog(env, LogOf(inner[..n]));
      assert LogOf(inner)[n] == Ran(inner[n]) && rendered[n] == RenderLogged(env, Ran(inner[n]));
      assert TransfersIn(inner[..n]) + [] == TransfersIn(inner[..n]);
      match inner[n]
      case LamportTransfer(_, _, _) =>
      case Allocate(_, _) =>
      case Assign(_, _) =>
      case TokenTransfer(_, _, _, _, _) =>
    }
  }

  lemma SafePrefix(inner: seq<Inner>)
    requires inner != []
    ensures var n := |inner| - 1;
            SafeAmounts(inner) <==>
              SafeAmounts(inner[..n]) && (inner[n].LamportTransfer? ==> inner[n].lamports <= MAX_SAFE_INTEGER)
  {}

  lemma {:induction false} TransfersAppend(a: seq<Inner>, b: seq<Inner>)
    ensures TransfersIn(a + b) == TransfersIn(a) + TransfersIn(b)
  {
    if b == [] {
      assert a + b == a;
    } else {
      assert (a + b)[..|a + b| - 1] == a + b[..|b| - 1];
      TransfersAppend(a, b[..|b| - 1]);
    }
  }

  lemma {:induction false} KeysAppend(s: seq<Transfer>, t: seq<Transfer>, record: string)
    ensures ObservedKeys(s + t, record) == ObservedKeys(s, record) + ObservedKeys(t, record)
  {
    if t == [] {
      assert s + t == s;
    } else {
      assert (s + t)[..|s + t| - 1] == s + t[..|t| - 1];
      KeysAppend(s, t[..|t| - 1], record);
    }
  }

  /** The last payment, if it is one, is the last transfer. */
  lemma LastPayment(a: Accounts, payer: Meta, recipients: seq<Meta>, payouts: seq<nat>)
    requires |recipients| == |payouts| > 0 && Paid(a, payer, recipients, payouts).Ok?
    ensures var n := |recipients| - 1;
            && Paid(a, payer, recipients[..n], payouts[..n]).Ok?
            && Paid(a, payer, recipients, payouts).value.inner ==
               Paid(a, payer, recipients[..n], payouts[..n]).value.inner
               + if payouts[n] == 0 then [] else [LamportTransfer(payer.key, recipients[n].key, payouts[n])]
  {}

  /** The payments of a settlement, observed, are the keys expected of it, in order. */
  lemma {:induction false} PaymentKeys(a: Accounts, payer: Meta, recipients: seq<Meta>, payouts: seq<nat>, record: Key)
    requires |recipients| == |payouts| && Paid(a, payer, recipients, payouts).Ok?
    requires forall i :: 0 <= i < |recipients| ==> recipients[i].key != record
    ensures ObservedKeys(TransfersIn(Paid(a, payer, recipients, payouts).value.inner), Base58(record))
         == ExpectedKeys(Base58(payer.key), Texts(KeysIn(recipients)), payouts)
  {
    hide Base58, TransferKey, Transferred, TransfersIn, ObservedKeys, ExpectedKeys, Texts, KeysIn;
    if recipients != [] {
      var n := |recipients| - 1;
      LastPayment(a, payer, recipients, payouts);
      PaymentKeys(a, payer, recipients[..n], payouts[..n], record);
      hide Paid;
      var first := Paid(a, payer, recipients[..n], payouts[..n]).value.inner;
      TextsOfPrefix(recipients, n);
      ExpectedLast(Base58(payer.key), Texts(KeysIn(recipients)), payouts);
      if payouts[n] == 0 {
        assert first + [] == first;
      } else {
        var last := [LamportTransfer(payer.key, recipients[n].key, payouts[n])];
        TransfersAppend(first, last);
        PaymentKey(payer.key, recipients[n].key, payouts[n], record);
        KeysAppend(TransfersIn(first), TransfersIn(last), Base58(record));
      }
    } else {
      NoPaymentKeys(payer, record);
    }
  }

  lemma NoPaymentKeys(payer: Meta, record: Key)
    ensures ObservedKeys(TransfersIn([]), Base58(record)) == ExpectedKeys(Base58(payer.key), Texts(KeysIn([])), [])
  {}

  lemma TextsOfPrefix(metas: seq<Meta>, n: nat)
    requires n < |metas|
    ensures |Texts(KeysIn(metas))| == |metas| && Texts(KeysIn(metas))[..n] == Texts(KeysIn(metas[..n]))
    ensures Texts(KeysIn(metas))[n] == Base58(metas[n].key)
  {}

  lemma ExpectedLast(payer: string, recipients: seq<string>, amounts: seq<nat>)
    requires |recipients| == |amounts| > 0
    ensures var n := |recipients| - 1;
            ExpectedKeys(payer, recipients, amounts) == ExpectedKeys(payer, recipients[..n], amounts[..n])
                                                        + if amounts[n] == 0 then []
                                                          else [TransferKey(payer, recipients[n], amounts[n])]
  {}

  /** One payment is observed as one key, unless it goes to the record. */
  lemma PaymentKey(source: Key, destination: Key, amount: nat, record: Key)
    requires destination != record
    ensures ObservedKeys(TransfersIn([LamportTransfer(source, destination, amount)]), Base58(record))
         == [TransferKey(Base58(source), Base58(destination), amount)]
  {
    if Base58(destination) == Base58(record) {
      Base58Injective(destination, record);
    }
    hide Base58, TransferKey;
    var t := Transfer(Base58(source), Base58(destination), amount);
    assert TransfersIn([LamportTransfer(source, destination, amount)]) == [t];
    assert [t][..0] == [];
  }

  /** The record's funding is not observed: it goes to the record. */
  lemma CreationKeys(env: Env, a: Accounts, payer: Meta, namespace: Key, record: Meta, systemProgram: Meta,
                     eventId: Key, amount: u64)
    requires RecordCreated(env, a, payer, namespace, record, systemProgram, eventId, amount).Ok?
    ensures var inner := RecordCreated(env, a, payer, namespace, record, systemProgram, eventId, amount).value.inner;
            inner != [] && ObservedKeys(TransfersIn(inner), Base58(record.key)) == []
  {
    var shortfall := Shortfall(env, a, record.key, RECORD_SIZE);
    var inner := RecordCreated(env, a, payer, namespace, record, systemProgram, eventId, amount).value.inner;
    var funding := if shortfall > 0 then [LamportTransfer(payer.key, record.key, shortfall)] else [];
    var rest := [Allocate(record.key, RECORD_SIZE), Assign(record.key, env.programId)];
    assert inner == funding + rest;
    TransfersAppend(funding, rest);
    assert rest[..1] == [rest[0]] && TransfersIn(rest[..1]) == [];
    assert TransfersIn(rest) == [];
    if shortfall > 0 {
      var t := Transfer(Base58(payer.key), Base58(record.key), shortfall);
      assert TransfersIn(funding) == [t];
      assert ObservedKeys([t], Base58(record.key)) == ObservedKeys([], Base58(record.key));
    }
  }

  /** What is observed of a native settlement is what is expected of its split. */
  lemma SettlementKeys(env: Env, a: Accounts, l: Listing, eventId: Key, amount: u64, payouts: seq<nat>)
    requires |l.recipients| == |payouts| && SettledWith(env, a, l, eventId, amount, payouts).Ok?
    ensures var inner := SettledWith(env, a, l, eventId, amount, payouts).value.inner;
            && inner != []
            && ObservedKeys(TransfersIn(inner), Base58(l.record.key))
               == ExpectedKeys(Base58(l.payer.key), Texts(KeysIn(l.recipients)), payouts)
  {
    var created := RecordCreated(env, a, l.payer, l.namespace.key, l.record, l.systemProgram, eventId, amount);
    CreationKeys(env, a, l.payer, l.namespace.key, l.record, l.systemProgram, eventId, amount);
    var paid := Paid(created.value.accounts, l.payer, l.recipients, payouts);
    PaymentKeys(created.value.accounts, l.payer, l.recipients, payouts, l.record.key);
    TransfersAppend(created.value.inner, paid.value.inner);
    KeysAppend(TransfersIn(created.value.inner), TransfersIn(paid.value.inner), Base58(l.record.key));
  }

  // ----- Acceptance means payment -----

  /** What the ledger's observation of an honest answer says about the instruction it came from. */
  lemma ObservedCall(client: Client, answer: RpcTransaction, landing: Landing, signature: string) returns (i: nat)
    requires ClientValid(client) && WellTyped(client, landing.tx.instructions) && Honest(client, answer, landing)
    requires Observe(client, answer, signature).Ok?
    ensures landing.outcome.Some?
    ensures i < |landing.tx.instructions| && landing.tx.instructions[i].Call?
    ensures var o, call := Observe(client, answer, signature).value, landing.tx.instructions[i];
            && Unpack(call.data) == Some(SettleN(o.eventSeed, o.amount, o.bps))
            && |call.metas| == |o.bps| + 5
            && call.metas[0].key == o.payer && call.metas[1].key == o.authority && call.metas[2].key == o.namespace
            && KeysIn(call.metas[3..3 + |o.bps|]) == o.recipients
            && call.metas[3 + |o.bps|].key == o.record
  {
    hide OfProgram, Select, MemoOf, SystemTransfers, GroupAt, RecordAddress, Unpack, RenderGroups;
    i := FindSettlement(answer.instructions, client.env.programId).value;
    assert answer.instructions[i] == RenderTop(client, landing.tx.instructions[i]);
    var call := landing.tx.instructions[i];
    DecodersAgree(call.data);
    var o := Observe(client, answer, signature).value;
    assert KeysIn(call.metas[3..3 + |o.bps|]) == KeysIn(call.metas)[3..3 + |o.bps|];
  }

  /**
    Instruction `i` of a landed transaction paid a request: from the state it
    ran in, it moved exactly the split of the scaled amount to exactly the
    request's recipients, charged its payer the amount and the record's rent,
    and wrote the event's record in the namespace.
   */
  ghost predicate PaysExactly(client: Client, landing: Landing, i: nat, request: Request, namespace: Key, scale: int) {
    var env, instructions := client.env, landing.tx.instructions;
    && i < |instructions| && instructions[i].Call?
    && Execute(env, landing.before, instructions[..i]).Some?
    && 0 < request.amountAtomic * scale < U64_LIMIT
    && exists payouts: seq<nat> ::
         && Split(request.amountAtomic * scale, BpsOfShares(request.shares)) == Ok(payouts)
         && CallPays(client, Execute(env, landing.before, instructions[..i]).value.accounts, instructions[i].metas,
                     instructions[i].data, request, namespace, request.amountAtomic * scale, payouts)
  }

  /** Instruction `i` lists the payer and the authority first. */
  predicate IsSignedBy(landing: Landing, i: nat, payer: Key, authority: Key) {
    var instructions := landing.tx.instructions;
    && i < |instructions| && instructions[i].Call? && |instructions[i].metas| > 1
    && instructions[i].metas[0].key == payer && instructions[i].metas[1].key == authority
  }

  ghost predicate CallPays(client: Client, a: Accounts, metas: seq<Meta>, data: seq<byte>, request: Request,
                           namespace: Key, amount: u64, payouts: seq<nat>)
  {
    var env, seed, run := client.env, client.eventSeed(request.eventId), Process(client.env, a, metas, data);
    && |metas| == |payouts| + 5 && metas[2].key == namespace
    && metas[3 + |payouts|].key == RecordAddress(env, namespace, seed)
    && Texts(KeysIn(metas[3..3 + |payouts|])) == RecipientsOf(request.shares)
    && run.Ok?
    && SettlementChanges(env, a, run.value.accounts, metas[0].key, metas[3..3 + |payouts|], metas[3 + |payouts|].key,
                         seed, amount, payouts)
  }

  /**
    Soundness of the pipeline. If honest evidence of a landed transaction is
    accepted for a request, then that transaction created the event's record in
    the namespace and paid the request exactly, and its one memo names the event.
   */
  lemma AcceptedMeansPaid(client: Client, answer: RpcTransaction, landing: Landing, signature: string,
                          request: Request, namespace: Key, scale: int, ids: map<string, string>)
    returns (i: nat)
    requires ClientValid(client) && WellTyped(client, landing.tx.instructions) && Honest(client, answer, landing)
    requires Inv(client.env, landing.before) && LegalInstructions(client.env, landing.before, landing.tx.instructions)
    requires landing.outcome == Execute(client.env, landing.before, landing.tx.instructions)
    requires Judge(client, answer, signature, request, namespace, scale, ids).Ok?
    ensures CreatesRecord(client.env, landing, namespace, client.eventSeed(request.eventId))
    ensures PaysExactly(client, landing, i, request, namespace, scale)
    ensures NamesEvent(client, landing.tx, request.eventId)
    ensures Observe(client, answer, signature).Ok?
    ensures var o := Observe(client, answer, signature).value;
            IsSignedBy(landing, i, o.payer, o.authority)
  {
    hide Execute, Inv, LegalInstructions, Observe, Reconcile, Judge, Honest, WellTyped, NamesEvent, CreatesRecord, Process,
      Unpack, SettlementChanges, Texts, KeysIn, RecordAddress, RecipientsOf, BpsOfShares, Split, SharesOf, MemoMatches;
    var env := client.env;
    AcceptedAgrees(client, answer, signature, request, namespace, scale, ids);
    i := ObservedCall(client, answer, landing, signature);
    var o, call := Observe(client, answer, signature).value, landing.tx.instructions[i];
    AcceptedNames(client, answer, landing, signature, request, namespace, scale, ids);
    CallIsSettled(call.data, o.eventSeed, o.amount, o.bps);
    TopLevelCreates(env, landing, i, namespace, o.eventSeed);
    ExecutePrefix(env, landing.before, landing.tx.instructions, i);
    var a := Execute(env, landing.before, landing.tx.instructions[..i]).value.accounts;
    CallRan(env, a, call);
    var payouts := SharesOf(o.amount, o.bps).value;
    SplitOfShares(o.amount, o.bps);
    CallSettles(client, a, call.metas, call.data, o.eventSeed, o.amount, o.bps, payouts);
    assert CallPays(client, a, call.metas, call.data, request, namespace, o.amount, payouts);
  }

  lemma CallIsSettled(data: seq<byte>, seed: Key, amount: u64, bps: seq<u16>)
    requires Unpack(data) == Some(SettleN(seed, amount, bps))
    ensures SettledEvent(data) == Some(seed)
  {}

  lemma CallRan(env: Env, a: Accounts, call: TxInstruction)
    requires call.Call? && InstructionRun(env, a, call).Some?
    ensures Process(env, a, call.metas, call.data).Ok?
  {
    hide Process;
  }

  lemma SplitOfShares(amount: u64, bps: seq<u16>)
    requires SharesOf(amount, bps).Ok?
    ensures var payouts := SharesOf(amount, bps).value;
            Split(amount, bps) == Ok(payouts) && Sum(payouts) == amount > 0 && |payouts| == |bps|
  {
    SplitIsFair(amount, bps);
  }

  /** What an accepted observation agrees with the request on. */
  lemma AcceptedAgrees(client: Client, answer: RpcTransaction, signature: string, request: Request, namespace: Key,
                       scale: int, ids: map<string, string>)
    requires Judge(client, answer, signature, request, namespace, scale, ids).Ok?
    ensures Observe(client, answer, signature).Ok?
    ensures var o := Observe(client, answer, signature).value;
            && o.namespace == namespace && o.eventSeed == client.eventSeed(request.eventId)
            && o.amount == request.amountAtomic * scale && o.bps == BpsOfShares(request.shares)
            && Texts(o.recipients) == RecipientsOf(request.shares)
            && SharesOf(o.amount, o.bps).Ok? && MemoMatches(o.memo, request, o.amount)
  {
    hide Observe, Sort, ExpectedKeys, ObservedKeys, Base58, MemoMatches, Split, RequestValid, PayoutLines;
    var o := Observe(client, answer, signature).value;
    if Base58(o.namespace) == Base58(namespace) {
      Base58Injective(o.namespace, namespace);
    }
  }

  lemma AcceptedNames(client: Client, answer: RpcTransaction, landing: Landing, signature: string, request: Request,
                      namespace: Key, scale: int, ids: map<string, string>)
    requires Honest(client, answer, landing)
    requires Judge(client, answer, signature, request, namespace, scale, ids).Ok?
    ensures NamesEvent(client, landing.tx, request.eventId)
  {
    AcceptedAgrees(client, answer, signature, request, namespace, scale, ids);
    ObservedMemo(client, answer, signature);
    hide Judge, Observe, MemoOf, OfProgram;
  }

  lemma ObservedMemo(client: Client, answer: RpcTransaction, signature: string)
    requires Observe(client, answer, signature).Ok?
    ensures MemoOf(answer.instructions, client.memoProgram) == Some(Observe(client, answer, signature).value.memo)
  {}

  /** A settlement call that went through, and what it changed. */
  lemma CallSettles(client: Client, a: Accounts, metas: seq<Meta>, data: seq<byte>, seed: Key, amount: u64,
                    bps: seq<u16>, payouts: seq<nat>)
    requires client.env.Valid() && Unpack(data) == Some(SettleN(seed, amount, bps))
    requires SharesOf(amount, bps) == Ok(payouts) && Sum(payouts) == amount > 0
    requires Process(client.env, a, metas, data).Ok?
    ensures |metas| == |payouts| + 5 && metas[3 + |payouts|].key == RecordAddress(client.env, metas[2].key, seed)
    ensures SettlementChanges(client.env, a, Process(client.env, a, metas, data).value.accounts, metas[0].key,
                              metas[3..3 + |payouts|], metas[3 + |payouts|].key, seed, amount, payouts)
  {
    ProcessSettles(client.env, a, metas, data, seed, amount, bps, payouts);
    hide Process, Settled, Unpack, SharesOf, SettlementChanges, RecordAddress;
    SettlementEffect(client.env, a, metas, seed, amount, payouts);
  }

  lemma ProcessSettles(env: Env, a: Accounts, metas: seq<Meta>, data: seq<byte>, seed: Key, amount: u64, bps: seq<u16>,
                       payouts: seq<nat>)
    requires Unpack(data) == Some(SettleN(seed, amount, bps)) && SharesOf(amount, bps) == Ok(payouts)
    ensures Process(env, a, metas, data) == Settled(env, a, metas, seed, amount, payouts)
  {}

  /** The transaction's one memo names the event. */
  ghost predicate NamesEvent(client: Client, tx: Tx, eventId: string) {
    var memo := MemoOf(RenderAll(client, tx.instructions), client.memoProgram);
    memo.Some? && Says(memo.value, "event", eventId)
  }

  // ----- What the worker builds is accepted -----

  /** The transaction the worker signs for what it built: the memo, then the settlement. */
  function Instructions(built: Built): seq<TxInstruction> {
    [Note(Some(built.memo)), Call(built.metas, built.data)]
  }

  /** What can be built, and nothing else is. */
  lemma BuildsExactly(client: Client, request: Request, payer: Key, authority: Key, namespace: Key, scale: int)
    ensures Build(client, request, payer, authority, namespace, scale).Ok? <==>
              && request.asset == NATIVE_ASSET && IsSettleable(request, scale)
              && var keys := KeysOf(RecipientsOf(request.shares));
                 && keys.Some? && namespace !in keys.value
                 && RecordAddress(client.env, namespace, client.eventSeed(request.eventId)) !in keys.value
  {
    hide KeysOf, Texts, LabelsValid, Packed, RecordAddress;
    var total := request.amountAtomic * scale;
    if RequestValid(request) && scale > 0 {
      assert total > 0;
    }
  }

  lemma BuiltUnpacks(client: Client, request: Request, payer: Key, authority: Key, namespace: Key, scale: int)
    requires Build(client, request, payer, authority, namespace, scale).Ok?
    ensures var built := Build(client, request, payer, authority, namespace, scale).value;
            var total, bps := request.amountAtomic * scale, BpsOfShares(request.shares);
            var seed := client.eventSeed(request.eventId);
            && request.eventId != "" && request.asset == NATIVE_ASSET && scale > 0 && RequestValid(request)
            && 0 < total < U64_LIMIT && Split(total, bps).Ok?
            && Unpack(built.data) == Some(SettleN(seed, total, bps))
            && built.memo == MemoFor(request, total)
            && |built.metas| == |bps| + 5
            && built.metas[0] == Meta(payer, true, true)
            && built.metas[1] == Meta(authority, true, false)
            && built.metas[2].key == namespace
            && Texts(KeysIn(built.metas[3..3 + |bps|])) == RecipientsOf(request.shares)
            && built.metas[3 + |bps|] == Meta(RecordAddress(client.env, namespace, seed), false, true)
            && built.metas[4 + |bps|].key == SYSTEM_PROGRAM
  {
    var total, bps := request.amountAtomic * scale, BpsOfShares(request.shares);
    var seed := client.eventSeed(request.eventId);
    EncodedIsAccepted(seed, total, 0, bps);
    hide Unpack, Packed, KeyOf, Base58;
    var built := Build(client, request, payer, authority, namespace, scale).value;
    var recipients := KeysOf(RecipientsOf(request.shares)).value;
    assert built.metas[3..3 + |bps|] == Writable(recipients);
    assert KeysIn(Writable(recipients)) == recipients;
  }

  lemma OfProgramPair(x: RpcInstruction, y: RpcInstruction, programId: Key)
    ensures OfProgram([x, y], programId) == (if x.programId == programId then [0] else [])
                                            + (if y.programId == programId then [1] else [])
  {
    assert [x, y][..1] == [x] && [x][..0] == [];
    assert OfProgram([x], programId) == OfProgram([], programId) + if x.programId == programId then [0] else [];
    assert OfProgram([x], programId) == if x.programId == programId then [0] else [];
  }

  lemma SelectOne(index: nat, instructions: seq<RpcInstruction>, creates: bool)
    requires index < |instructions|
    ensures Select([index], instructions, creates) ==
            if IsCreateNamespace(instructions[index]) == creates then [index] else []
  {}

  /** The lone settlement of a built transaction is found, with its memo. */
  lemma BuiltIsFound(client: Client, built: Built)
    requires ClientValid(client) && built.data != [] && built.data[0] == SETTLE_N_TAG
    ensures var rendered := RenderAll(client, Instructions(built));
            && FindSettlement(rendered, client.env.programId) == Some(1)
            && MemoOf(rendered, client.memoProgram) == Some(built.memo)
  {
    hide OfProgram, Select, RenderAll, IsCreateNamespace;
    var rendered := RenderAll(client, Instructions(built));
    RenderedPair(client, built);
    var note, call := rendered[0], rendered[1];
    OfProgramPair(note, call, client.env.programId);
    OfProgramPair(note, call, client.memoProgram);
    SelectOne(1, rendered, true);
    SelectOne(1, rendered, false);
    assert OfProgram(rendered, client.env.programId) == [1] && OfProgram(rendered, client.memoProgram) == [0];
  }

  lemma RenderedPair(client: Client, built: Built)
    requires built.data != [] && built.data[0] == SETTLE_N_TAG
    ensures var rendered := RenderAll(client, Instructions(built));
            && |rendered| == 2 && rendered == [rendered[0], rendered[1]]
            && rendered[0] == Decoded(client.memoProgram, MemoText(Some(built.memo)))
            && rendered[1] == Raw(client.env.programId, KeysIn(built.metas), Some(built.data))
            && !IsCreateNamespace(rendered[1])
  {}

  /** A stated memo matches the request it was written for. */
  lemma MemoForMatches(request: Request, total: nat)
    ensures MemoMatches(MemoFor(request, total), request, total)
  {}

  /** Every field due is there, as due. */
  ghost predicate SaysAllOf(memo: Memo, due: Memo) {
    forall field <- due :: field in memo && memo[field] == due[field]
  }

  /** A memo matches exactly when it says all that would be written for the request. */
  lemma MemoMatchesExactly(memo: Memo, request: Request, total: nat)
    ensures MemoMatches(memo, request, total) <==> SaysAllOf(memo, MemoFor(request, total))
  {
    hide Decimal;
    var due := MemoFor(request, total);
    assert due.Keys == {"protocol", "event", "occurredAt", "kind", "asset", "lamports", "memo"};
    hide MemoFor;
    assert SaysAllOf(memo, due) <==> forall field <- due.Keys :: field in memo && memo[field] == due[field];
  }

  // ----- What is accepted, and what is a mismatch -----

  /** The observation is of this very request: every field it settles, all the memo says, and each transfer due, no other. */
  ghost predicate IsInAccord(client: Client, o: Observation, request: Request, namespace: Key, scale: int) {
    var total := request.amountAtomic * scale;
    && o.namespace == namespace && o.eventSeed == client.eventSeed(request.eventId)
    && o.amount == total && request.asset == NATIVE_ASSET && o.bps == BpsOfShares(request.shares)
    && Texts(o.recipients) == RecipientsOf(request.shares)
    && SaysAllOf(o.memo, MemoFor(request, o.amount))
    && SharesOf(o.amount, o.bps).Ok?
    && multiset(ExpectedKeys(Base58(o.payer), RecipientsOf(request.shares), SharesOf(o.amount, o.bps).value))
       == multiset(ObservedKeys(o.transfers, Base58(o.record)))
  }

  /** A request that could have been built: whether it is the one observed is the only question. */
  predicate IsSettleable(request: Request, scale: int) {
    && RequestValid(request) && scale > 0 && request.eventId != "" && 0 < request.amountAtomic * scale < U64_LIMIT
  }

  /** Accepted exactly when in accord, and no beneficiary id is blank; anything else is a mismatch. */
  lemma ReconciledExactly(client: Client, o: Observation, request: Request, namespace: Key, scale: int,
                          ids: map<string, string>)
    requires IsSettleable(request, scale)
    ensures var judged := Reconcile(client, o, request, namespace, scale, ids);
            && (judged.Ok? <==> IsInAccord(client, o, request, namespace, scale)
                                && forall name <- ids :: Trim(ids[name]) != "")
            && (judged.Err? ==> IsMismatch(judged.error))
  {
    hide Sort, MemoMatches, MemoFor, Base58, ExpectedKeys, ObservedKeys, Split, RequestValid, PayoutLines, EntriesOf,
      PoolsOf, Texts, Trim, IsInAccord;
    if o.amount == request.amountAtomic * scale && o.bps == BpsOfShares(request.shares) {
      AnyTotalSplits(request, scale);
    }
    AccordChecked(client, o, request, namespace, scale);
  }

  /** The shares that split a request's own amount split any other. */
  lemma AnyTotalSplits(request: Request, scale: int)
    requires IsSettleable(request, scale)
    ensures Split(request.amountAtomic * scale, BpsOfShares(request.shares)).Ok?
  {
    hide LabelsValid;
  }

  /** The checks, comparing texts and sorted keys, come to the same. */
  lemma AccordChecked(client: Client, o: Observation, request: Request, namespace: Key, scale: int)
    ensures IsInAccord(client, o, request, namespace, scale) <==>
              && Base58(o.namespace) == Base58(namespace) && o.eventSeed == client.eventSeed(request.eventId)
              && o.amount == request.amountAtomic * scale && request.asset == NATIVE_ASSET
              && o.bps == BpsOfShares(request.shares) && Texts(o.recipients) == RecipientsOf(request.shares)
              && MemoMatches(o.memo, request, o.amount)
              && SharesOf(o.amount, o.bps).Ok?
              && Sort(ExpectedKeys(Base58(o.payer), RecipientsOf(request.shares), SharesOf(o.amount, o.bps).value))
                 == Sort(ObservedKeys(o.transfers, Base58(o.record)))
  {
    hide Sort, MemoMatches, MemoFor, Base58, ExpectedKeys, ObservedKeys, Split, Texts;
    if Base58(o.namespace) == Base58(namespace) {
      Base58Injective(o.namespace, namespace);
    }
    MemoMatchesExactly(o.memo, request, o.amount);
    if SharesOf(o.amount, o.bps).Ok? && |o.bps| == |request.shares| {
      SortedEqualIffPermutation(ExpectedKeys(Base58(o.payer), RecipientsOf(request.shares), SharesOf(o.amount, o.bps).value),
                                ObservedKeys(o.transfers, Base58(o.record)));
    }
  }

  // ----- Which settlements a JSON number can state -----

  /** Every payout of the request's split fits a JSON number. */
  predicate PayoutsFit(request: Request, scale: int) {
    var split := Split(request.amountAtomic * scale, BpsOfShares(request.shares));
    split.Ok? ==> AllFit(split.value)
  }

  predicate AllFit(amounts: seq<int>) {
    forall i :: 0 <= i < |amounts| ==> amounts[i] <= MAX_SAFE_INTEGER
  }

  lemma LastFits(amounts: seq<int>)
    requires amounts != []
    ensures var n := |amounts| - 1;
            AllFit(amounts) <==> AllFit(amounts[..n]) && amounts[n] <= MAX_SAFE_INTEGER
  {}

  /** So does the rent its record still lacks. */
  predicate FitsJson(client: Client, a: Accounts, request: Request, namespace: Key, scale: int) {
    && PayoutsFit(request, scale)
    && Shortfall(client.env, a, RecordAddress(client.env, namespace, client.eventSeed(request.eventId)), RECORD_SIZE)
       <= MAX_SAFE_INTEGER
  }

  /** Where a whole record's rent fits, the request alone decides. */
  lemma RequestDecidesFit(client: Client, a: Accounts, request: Request, namespace: Key, scale: int)
    requires client.env.rent(RECORD_SIZE) <= MAX_SAFE_INTEGER
    ensures FitsJson(client, a, request, namespace, scale) <==> PayoutsFit(request, scale)
  {}

  lemma SafeAppend(a: seq<Inner>, b: seq<Inner>)
    ensures SafeAmounts(a + b) <==> SafeAmounts(a) && SafeAmounts(b)
  {
    if SafeAmounts(a + b) {
      forall i | 0 <= i < |a| && a[i].LamportTransfer?
        ensures a[i].lamports <= MAX_SAFE_INTEGER
      {
        assert a[i] == (a + b)[i];
      }
      forall i | 0 <= i < |b| && b[i].LamportTransfer?
        ensures b[i].lamports <= MAX_SAFE_INTEGER
      {
        assert b[i] == (a + b)[|a| + i];
      }
    }
  }

  lemma {:induction false} PaidFits(a: Accounts, payer: Meta, recipients: seq<Meta>, payouts: seq<nat>)
    requires |recipients| == |payouts| && Paid(a, payer, recipients, payouts).Ok?
    ensures SafeAmounts(Paid(a, payer, recipients, payouts).value.inner) <==> AllFit(payouts)
  {
    if recipients != [] {
      var n := |recipients| - 1;
      LastPayment(a, payer, recipients, payouts);
      PaidFits(a, payer, recipients[..n], payouts[..n]);
      LastFits(payouts);
      var last := if payouts[n] == 0 then [] else [LamportTransfer(payer.key, recipients[n].key, payouts[n])];
      assert payouts[n] > 0 ==> last[0].lamports == payouts[n];
      assert SafeAmounts(last) <==> payouts[n] <= MAX_SAFE_INTEGER;
      hide Paid, SafeAmounts, AllFit;
      SafeAppend(Paid(a, payer, recipients[..n], payouts[..n]).value.inner, last);
    }
  }

  lemma CreatedFits(env: Env, a: Accounts, payer: Meta, namespace: Key, record: Meta, systemProgram: Meta, eventId: Key,
                    amount: u64)
    requires RecordCreated(env, a, payer, namespace, record, systemProgram, eventId, amount).Ok?
    ensures SafeAmounts(RecordCreated(env, a, payer, namespace, record, systemProgram, eventId, amount).value.inner) <==>
            Shortfall(env, a, record.key, RECORD_SIZE) <= MAX_SAFE_INTEGER
  {
    var shortfall := Shortfall(env, a, record.key, RECORD_SIZE);
    var funding := if shortfall > 0 then [LamportTransfer(payer.key, record.key, shortfall)] else [];
    var rest := [Allocate(record.key, RECORD_SIZE), Assign(record.key, env.programId)];
    assert RecordCreated(env, a, payer, namespace, record, systemProgram, eventId, amount).value.inner == funding + rest;
    assert shortfall > 0 ==> funding[0].lamports == shortfall;
    SafeAppend(funding, rest);
  }

  /** The transfers of a settlement fit exactly when its payouts and the missing rent do. */
  lemma SettledFits(env: Env, a: Accounts, l: Listing, eventId: Key, amount: u64, payouts: seq<nat>)
    requires |l.recipients| == |payouts| && SettledWith(env, a, l, eventId, amount, payouts).Ok?
    ensures SafeAmounts(SettledWith(env, a, l, eventId, amount, payouts).value.inner) <==>
              && Shortfall(env, a, l.record.key, RECORD_SIZE) <= MAX_SAFE_INTEGER
              && AllFit(payouts)
  {
    hide AllFit, RecordCreated, Paid, SafeAmounts, AuthorizeError;
    var created := RecordCreated(env, a, l.payer, l.namespace.key, l.record, l.systemProgram, eventId, amount);
    CreatedFits(env, a, l.payer, l.namespace.key, l.record, l.systemProgram, eventId, amount);
    PaidFits(created.value.accounts, l.payer, l.recipients, payouts);
    SafeAppend(created.value.inner, Paid(created.value.accounts, l.payer, l.recipients, payouts).value.inner);
  }

  lemma BuiltFits(client: Client, a: Accounts, request: Request, payer: Key, authority: Key, namespace: Key, scale: int)
    requires Build(client, request, payer, authority, namespace, scale).Ok?
    requires var built := Build(client, request, payer, authority, namespace, scale).value;
             Process(client.env, a, built.metas, built.data).Ok?
    ensures var built := Build(client, request, payer, authority, namespace, scale).value;
            SafeAmounts(Process(client.env, a, built.metas, built.data).value.inner) <==>
            FitsJson(client, a, request, namespace, scale)
  {
    hide Build, Process, SettledWith, SafeAmounts, RequestValid, Unpack, Texts, KeysIn, RecordAddress, MemoFor, Split;
    var built := Build(client, request, payer, authority, namespace, scale).value;
    BuiltUnpacks(client, request, payer, authority, namespace, scale);
    var amount, bps, seed := request.amountAtomic * scale, BpsOfShares(request.shares), client.eventSeed(request.eventId);
    SplitOfShares(amount, bps);
    var payouts := SharesOf(amount, bps).value;
    BuiltSettlesWith(client.env, a, built, seed, amount, bps, payouts);
    SettledFits(client.env, a, ListingOf(built.metas, |payouts|), seed, amount, payouts);
  }

  /**
    Completeness of the pipeline. A settlement the worker built, once landed, is
    accepted by honest complete evidence exactly when its payouts and the rent
    its record lacked fit JSON numbers; otherwise it is refused with a mismatch.
   */
  lemma OwnSettlementJudged(client: Client, answer: RpcTransaction, landing: Landing, request: Request, payer: Key,
                            authority: Key, namespace: Key, scale: int, ids: map<string, string>)
    requires ClientValid(client) && Honest(client, answer, landing) && answer.blockTime.Some?
    requires landing.outcome == Execute(client.env, landing.before, landing.tx.instructions) && landing.outcome.Some?
    requires Build(client, request, payer, authority, namespace, scale).Ok?
    requires landing.tx.instructions == Instructions(Build(client, request, payer, authority, namespace, scale).value)
    requires forall name <- ids :: Trim(ids[name]) != ""
    ensures var built := Build(client, request, payer, authority, namespace, scale).value;
            var run := Process(client.env, landing.before, built.metas, built.data);
            && run.Ok?
            && match Judge(client, answer, landing.tx.signature, request, namespace, scale, ids)
               case Ok(_) => FitsJson(client, landing.before, request, namespace, scale)
               case Err(code) => !FitsJson(client, landing.before, request, namespace, scale) && code == TRANSFER_MISMATCH
  {
    var built := Build(client, request, payer, authority, namespace, scale).value;
    hide *;
    BuiltRuns(client.env, landing.before, built);
    BuiltInvokes(client, landing.before, request, payer, authority, namespace, scale);
    BuiltFits(client, landing.before, request, payer, authority, namespace, scale);
    var inner := Process(client.env, landing.before, built.metas, built.data).value.inner;
    OwnSettlementObserved(client, answer, landing, request, payer, authority, namespace, scale, inner);
    JudgeObserves(client, answer, landing.tx.signature, request, namespace, scale, ids);
    if SafeAmounts(inner) {
      OwnSettlementReconciled(client, landing.before, request, payer, authority, namespace, scale, ids,
                              Observe(client, answer, landing.tx.signature).value);
    }
  }

  lemma JudgeObserves(client: Client, answer: RpcTransaction, signature: string, request: Request, namespace: Key,
                      scale: int, ids: map<string, string>)
    ensures Judge(client, answer, signature, request, namespace, scale, ids) ==
            match Observe(client, answer, signature)
            case Err(code) => Err(code)
            case Ok(o) => Reconcile(client, o, request, namespace, scale, ids)
  {}

  lemma BuiltInvokes(client: Client, a: Accounts, request: Request, payer: Key, authority: Key, namespace: Key, scale: int)
    requires Build(client, request, payer, authority, namespace, scale).Ok?
    requires var built := Build(client, request, payer, authority, namespace, scale).value;
             Process(client.env, a, built.metas, built.data).Ok?
    ensures var built := Build(client, request, payer, authority, namespace, scale).value;
            Process(client.env, a, built.metas, built.data).value.inner != []
  {
    var built := Build(client, request, payer, authority, namespace, scale).value;
    BuiltUnpacks(client, request, payer, authority, namespace, scale);
    var amount, seed := request.amountAtomic * scale, client.eventSeed(request.eventId);
    var payouts := SharesOf(amount, BpsOfShares(request.shares)).value;
    SettlementKeys(client.env, a, ListingOf(built.metas, |payouts|), seed, amount, payouts);
    hide Build, SettledWith;
  }

  /** The observation of a settlement the worker built. */
  ghost predicate ObservesBuilt(client: Client, o: Observation, request: Request, payer: Key, namespace: Key,
                                scale: int, inner: seq<Inner>)
  {
    && o.payer == payer && o.namespace == namespace
    && o.eventSeed == client.eventSeed(request.eventId)
    && o.record == RecordAddress(client.env, namespace, o.eventSeed)
    && o.amount == request.amountAtomic * scale && o.bps == BpsOfShares(request.shares)
    && Texts(o.recipients) == RecipientsOf(request.shares)
    && o.memo == MemoFor(request, o.amount)
    && o.transfers == TransfersIn(inner)
  }

  /** Observation, once everything but the transfers is known to be in order. */
  lemma ObserveWith(client: Client, answer: RpcTransaction, signature: string, i: nat, data: seq<byte>,
                    decoded: Instruction, memo: Memo, group: seq<RpcInstruction>)
    requires answer.succeeded && signature in answer.signatures && answer.blockTime.Some?
    requires FindSettlement(answer.instructions, client.env.programId) == Some(i)
    requires i < |answer.instructions| && answer.instructions[i].Raw? && answer.instructions[i].data == Some(data)
    requires DecodeSettleNData(data) == Some(decoded) && decoded.SettleN?
    requires MemoOf(answer.instructions, client.memoProgram) == Some(memo) && GroupAt(answer.inner, i) == Some(group)
    requires var accounts, count := answer.instructions[i].accounts, |decoded.bps|;
             && |accounts| == count + 5 && accounts[4 + count] == SYSTEM_PROGRAM
             && accounts[3 + count] == RecordAddress(client.env, accounts[2], decoded.eventId)
    ensures var accounts, count := answer.instructions[i].accounts, |decoded.bps|;
            Observe(client, answer, signature) ==
            match SystemTransfers(group)
            case None => Err(TRANSFER_MISMATCH)
            case Some(transfers) =>
              Ok(Observation(signature, answer.slot, answer.blockTime.value, accounts[0], accounts[1], accounts[2],
                             accounts[3 + count], decoded.eventId, decoded.amount, decoded.bps,
                             accounts[3..3 + count], transfers, memo))
  {}

  lemma HonestSays(client: Client, answer: RpcTransaction, landing: Landing)
    requires Honest(client, answer, landing)
    ensures landing.tx.signature in answer.signatures && answer.succeeded == landing.outcome.Some?
    ensures answer.instructions == RenderAll(client, landing.tx.instructions)
    ensures landing.outcome.Some? ==> answer.inner == RenderGroups(client.env, landing.outcome.value.logs)
  {}

  lemma OwnSettlementObserved(client: Client, answer: RpcTransaction, landing: Landing, request: Request, payer: Key,
                              authority: Key, namespace: Key, scale: int, inner: seq<Inner>)
    requires ClientValid(client) && Honest(client, answer, landing) && answer.blockTime.Some?
    requires landing.outcome.Some? && landing.outcome.value.logs == [[], LogOf(inner)] && inner != []
    requires Build(client, request, payer, authority, namespace, scale).Ok?
    requires landing.tx.instructions == Instructions(Build(client, request, payer, authority, namespace, scale).value)
    ensures match Observe(client, answer, landing.tx.signature)
            case Ok(o) => SafeAmounts(inner) && ObservesBuilt(client, o, request, payer, namespace, scale, inner)
            case Err(code) => !SafeAmounts(inner) && code == TRANSFER_MISMATCH
  {
    hide Observe, Build, FindSettlement, MemoOf, GroupAt, RenderGroups, RenderAll, RenderLog, Honest, SystemTransfers,
      Unpack, DecodeSettleNData, TransfersIn, SafeAmounts, Texts, KeysIn, MemoFor, RequestValid, Split, RecordAddress;
    HonestSays(client, answer, landing);
    var built := Build(client, request, payer, authority, namespace, scale).value;
    BuiltUnpacks(client, request, payer, authority, namespace, scale);
    UnpackedTag(built.data);
    BuiltIsFound(client, built);
    GroupOf(client.env, landing.outcome.value.logs, 1);
    TransfersRead(client.env, inner);
    DecodersAgree(built.data);
    var count := |request.shares|;
    var decoded := Unpack(built.data).value;
    ObservedAccounts(client, answer, landing, built);
    var group := RenderLog(client.env, LogOf(inner));
    ObserveWith(client, answer, landing.tx.signature, 1, built.data, decoded, built.memo, group);
  }

  lemma ObservedAccounts(client: Client, answer: RpcTransaction, landing: Landing, built: Built)
    requires Honest(client, answer, landing) && landing.tx.instructions == Instructions(built)
    ensures |answer.instructions| == 2
    ensures answer.instructions[1] == Raw(client.env.programId, KeysIn(built.metas), Some(built.data))
    ensures forall i :: 0 <= i < |built.metas| ==> KeysIn(built.metas)[i] == built.metas[i].key
    ensures forall i, j :: 0 <= i <= j <= |built.metas| ==>
              KeysIn(built.metas)[i..j] == KeysIn(built.metas[i..j])
  {}

  lemma OwnSettlementReconciled(client: Client, a: Accounts, request: Request, payer: Key, authority: Key, namespace: Key,
                                scale: int, ids: map<string, string>, o: Observation)
    requires Build(client, request, payer, authority, namespace, scale).Ok?
    requires var built := Build(client, request, payer, authority, namespace, scale).value;
             var run := Process(client.env, a, built.metas, built.data);
             run.Ok? && ObservesBuilt(client, o, request, payer, namespace, scale, run.value.inner)
    requires forall name <- ids :: Trim(ids[name]) != ""
    ensures Reconcile(client, o, request, namespace, scale, ids).Ok?
  {
    hide Build, Process, Settled, SettledWith, Sort, MemoMatches, MemoFor, RequestValid, ExpectedKeys, ObservedKeys, Base58,
      Unpack, TransfersIn, PayoutLines, EntriesOf, PoolsOf, RecipientsOf, Texts, KeysIn, RecordAddress, BpsOfShares, Trim;
    var built := Build(client, request, payer, authority, namespace, scale).value;
    BuiltUnpacks(client, request, payer, authority, namespace, scale);
    MemoForMatches(request, o.amount);
    var payouts := SharesOf(o.amount, o.bps).value;
    var l := ListingOf(built.metas, |payouts|);
    BuiltSettlesWith(client.env, a, built, o.eventSeed, o.amount, o.bps, payouts);
    SettlementKeys(client.env, a, l, o.eventSeed, o.amount, payouts);
  }

  lemma BuiltSettlesWith(env: Env, a: Accounts, built: Built, seed: Key, amount: u64, bps: seq<u16>, payouts: seq<nat>)
    requires Unpack(built.data) == Some(SettleN(seed, amount, bps)) && SharesOf(amount, bps) == Ok(payouts)
    requires |built.metas| == |payouts| + 5
    ensures Process(env, a, built.metas, built.data)
         == SettledWith(env, a, ListingOf(built.metas, |payouts|), seed, amount, payouts)
  {
    hide Unpack, SharesOf, SettledWith;
  }

  lemma UnpackedTag(data: seq<byte>)
    requires Unpack(data).Some? && Unpack(data).value.SettleN?
    ensures data != [] && data[0] == SETTLE_N_TAG
  {}

  lemma BuiltRuns(env: Env, a: Accounts, built: Built)
    requires Execute(env, a, Instructions(built)).Some?
    ensures var effect := Process(env, a, built.metas, built.data);
            && effect.Ok?
            && Execute(env, a, Instructions(built)).value.logs == [[], LogOf(effect.value.inner)]
  {
    var both := Instructions(built);
    assert both[..1] == [Note(Some(built.memo))] && both[..1][..0] == [];
    hide Process;
    assert Execute(env, a, []) == Some(Run(a, []));
    assert InstructionRun(env, a, both[0]) == Some((a, []));
    var none: seq<seq<Logged>> := [];
    assert none + [[]] == [[]];
    assert Execute(env, a, both[..1]) == Some(Run(a, [[]]));
  }

  // ----- The comparison of transfers -----

  datatype Flow = Flow(source: Key, destination: Key, amount: nat)

  function FlowKey(flow: Flow): string {
    TransferKey(Base58(flow.source), Base58(flow.destination), flow.amount)
  }

  function FlowKeys(flows: seq<Flow>): (keys: seq<string>)
    ensures |keys| == |flows|
  {
    seq(|flows|, i requires 0 <= i < |flows| => FlowKey(flows[i]))
  }

  lemma FlowKeyInjective(a: Flow, b: Flow)
    ensures FlowKey(a) == FlowKey(b) <==> a == b
  {
    if FlowKey(a) == FlowKey(b) {
      TransferKeyInjective(a.source, a.destination, a.amount, b.source, b.destination, b.amount);
    }
  }

  /** Lists that agree on where `x` and `y` stand hold them equally often. */
  lemma {:induction false} CountAlike<S, T>(s: seq<S>, t: seq<T>, x: S, y: T)
    requires |s| == |t| && forall i :: 0 <= i < |s| ==> (s[i] == x <==> t[i] == y)
    ensures multiset(s)[x] == multiset(t)[y]
  {
    if s != [] {
      var n := |s| - 1;
      assert s == s[..n] + [s[n]] && t == t[..n] + [t[n]];
      CountAlike(s[..n], t[..n], x, y);
    }
  }

  lemma FlowCount(flows: seq<Flow>, flow: Flow)
    ensures multiset(FlowKeys(flows))[FlowKey(flow)] == multiset(flows)[flow]
  {
    hide FlowKey;
    forall i | 0 <= i < |flows|
      ensures FlowKeys(flows)[i] == FlowKey(flow) <==> flows[i] == flow
    {
      FlowKeyInjective(flows[i], flow);
    }
    CountAlike(FlowKeys(flows), flows, FlowKey(flow), flow);
  }

  /**
    The sorted keys of two lists of transfers are equal exactly when the lists
    are permutations of each other, duplicates counted.
   */
  lemma FlowsCompared(s: seq<Flow>, t: seq<Flow>)
    ensures Sort(FlowKeys(s)) == Sort(FlowKeys(t)) <==> multiset(s) == multiset(t)
  {
    SortedEqualIffPermutation(FlowKeys(s), FlowKeys(t));
    if multiset(FlowKeys(s)) == multiset(FlowKeys(t)) {
      forall flow: Flow
        ensures multiset(s)[flow] == multiset(t)[flow]
      {
        FlowCount(s, flow);
        FlowCount(t, flow);
      }
    } else if multiset(s) == multiset(t) {
      KeysOfPermutation(s, t);
    }
  }

  lemma {:induction false} KeysOfPermutation(s: seq<Flow>, t: seq<Flow>)
    requires multiset(s) == multiset(t)
    ensures multiset(FlowKeys(s)) == multiset(FlowKeys(t))
  {
    forall key: string
      ensures multiset(FlowKeys(s))[key] == multiset(FlowKeys(t))[key]
    {
      if i :| 0 <= i < |s| && FlowKeys(s)[i] == key {
        FlowCount(s, s[i]);
        FlowCount(t, s[i]);
      } else if i :| 0 <= i < |t| && FlowKeys(t)[i] == key {
        FlowCount(s, t[i]);
        FlowCount(t, t[i]);
      } else {
        assert key !in FlowKeys(s) && key !in FlowKeys(t);
      }
    }
  }

  /** An observation is refused for its transfers exactly when they are no permutation of those due. */
  lemma TransfersDecide(client: Client, o: Observation, request: Request, namespace: Key, scale: int,
                        ids: map<string, string>, amounts: seq<nat>, due: seq<Flow>, seen: seq<Flow>)
    requires SharesOf(o.amount, o.bps) == Ok(amounts) && |amounts| == |request.shares|
    requires ExpectedKeys(Base58(o.payer), RecipientsOf(request.shares), amounts) == FlowKeys(due)
    requires ObservedKeys(o.transfers, Base58(o.record)) == FlowKeys(seen)
    ensures Reconcile(client, o, request, namespace, scale, ids).Ok? ==> multiset(due) == multiset(seen)
    ensures Reconcile(client, o, request, namespace, scale, ids) == Err(TRANSFER_MISMATCH) ==> multiset(due) != multiset(seen)
  {
    FlowsCompared(due, seen);
    hide Sort, RequestValid, MemoMatches, Base58, FlowKeys, ExpectedKeys, ObservedKeys;
  }
}

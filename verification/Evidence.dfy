/**
  Reading a finalized transaction the way the ledger does: extract what the
  settlement instruction says and paid, compare it with a stored request, and
  derive the ledger rows. Every failure is one of the ledger's error codes.
 */
module Evidence {
  import opened Basics
  import opened Splits
  import opened Codec
  import opened Program
  import opened Text

  datatype Code =
    | PROTOCOL  // the request itself is malformed
    | TX_FAILED
    | TX_SIGNATURE
    | BLOCK_TIME_MISSING
    | PROGRAM_INSTRUCTION
    | INSTRUCTION_DATA
    | ACCOUNT_LAYOUT
    | MEMO_MISSING
    | MEMO_MISMATCH
    | NAMESPACE_MISMATCH
    | ASSET_MISMATCH
    | EVENT_MISMATCH
    | AMOUNT_MISMATCH
    | SHARES_MISMATCH
    | RECIPIENT_MISMATCH
    | TRANSFER_MISMATCH
    | SCALE_RANGE

  /** The codes that mean the evidence contradicts the request. */
  predicate IsMismatch(code: Code) {
    code in {NAMESPACE_MISMATCH, EVENT_MISMATCH, AMOUNT_MISMATCH, ASSET_MISMATCH, SHARES_MISMATCH,
             RECIPIENT_MISMATCH, TRANSFER_MISMATCH, MEMO_MISMATCH, MEMO_MISSING}
  }

  // ----- What an endpoint answers -----

  datatype Json = Str(text: string) | OtherJson

  type Memo = map<string, Json>

  datatype Parsed =
    | SystemTransfer(source: string, destination: string, lamports: nat)
    | MalformedTransfer
    | MemoText(fields: Option<Memo>)
    | OtherParsed

  /** An instruction the endpoint left raw, or one it parsed. Undecodable data is `None`. */
  datatype RpcInstruction =
    | Raw(programId: Key, accounts: seq<Key>, data: Option<seq<byte>>)
    | Decoded(programId: Key, parsed: Parsed)

  datatype Group = Group(index: nat, instructions: seq<RpcInstruction>)

  datatype RpcTransaction = RpcTransaction(signatures: seq<string>, slot: nat, blockTime: Option<int>, succeeded: bool,
                                           instructions: seq<RpcInstruction>, inner: seq<Group>)

  // ----- What a settlement is settled as -----

  datatype Share = Share(name: string, recipient: string, bps: int)

  datatype Request = Request(eventId: string, occurredAt: string, kind: string, amountAtomic: int, asset: string,
                             shares: seq<Share>, memo: string)

  /** The deployed program, the memo program, and the hash of event ids. */
  datatype Client = Client(env: Env, memoProgram: Key, eventSeed: string -> Key)

  const NATIVE_ASSET := "SOL_LAMPORTS_STANDIN"

  function BpsOfShares(shares: seq<Share>): (bps: seq<int>)
    ensures |bps| == |shares|
  {
    seq(|shares|, i requires 0 <= i < |shares| => shares[i].bps)
  }

  predicate IsSpace(c: char) {
    var n := c as int;
    9 <= n <= 13 || n == 32 || n == 160 || n == 5760 || 8192 <= n <= 8202 || n == 8232 || n == 8233
    || n == 8239 || n == 8287 || n == 12288 || n == 65279
  }

  function Trim(s: string): string {
    if s != [] && IsSpace(s[0]) then Trim(s[1..])
    else if s != [] && IsSpace(s[|s| - 1]) then Trim(s[..|s| - 1])
    else s
  }

  /** Trimming takes the blanks off both ends, and nothing else. */
  lemma {:induction false} TrimExactly(s: string) returns (i: nat, j: nat)
    ensures i <= j <= |s| && Trim(s) == s[i..j]
    ensures forall k :: 0 <= k < i || j <= k < |s| ==> IsSpace(s[k])
    ensures i < j ==> !IsSpace(s[i]) && !IsSpace(s[j - 1])
  {
    hide IsSpace;
    if s != [] && IsSpace(s[0]) {
      i, j := TrimExactly(s[1..]);
      assert s[1..][i..j] == s[i + 1..j + 1];
      i, j := i + 1, j + 1;
    } else if s != [] && IsSpace(s[|s| - 1]) {
      i, j := TrimExactly(s[..|s| - 1]);
      assert s[..|s| - 1][i..j] == s[i..j];
    } else {
      i, j := 0, |s|;
    }
  }

  predicate LabelsValid(shares: seq<Share>) {
    && (forall i :: 0 <= i < |shares| ==> Trim(shares[i].name) != "")
    && forall i, j :: 0 <= i < j < |shares| ==> Trim(shares[i].name) != Trim(shares[j].name)
  }

  /** Look at each label once, remembering those seen. */
  method CheckLabels(shares: seq<Share>) returns (ok: bool)
    ensures ok <==> LabelsValid(shares)
  {
    hide Trim;
    var labels: set<string> := {};
    for i := 0 to |shares|
      invariant forall k :: 0 <= k < i ==> Trim(shares[k].name) != "" && Trim(shares[k].name) in labels
      invariant forall name <- labels :: exists k :: 0 <= k < i && Trim(shares[k].name) == name
      invariant forall j, k :: 0 <= j < k < i ==> Trim(shares[j].name) != Trim(shares[k].name)
    {
      var name := Trim(shares[i].name);
      if name == "" || name in labels {
        return false;
      }
      labels := labels + {name};
    }
    return true;
  }

  /** A request whose labels and split are acceptable. */
  predicate RequestValid(request: Request) {
    LabelsValid(request.shares) && Split(request.amountAtomic, BpsOfShares(request.shares)).Ok?
  }

  // ----- Observing a settlement -----

  datatype Transfer = Transfer(source: string, destination: string, amount: nat)

  datatype Observation = Observation(signature: string, slot: nat, blockTime: int, payer: Key, authority: Key,
                                     namespace: Key, record: Key, eventSeed: Key, amount: u64, bps: seq<u16>,
                                     recipients: seq<Key>, transfers: seq<Transfer>, memo: Memo)

  function OfProgram(instructions: seq<RpcInstruction>, programId: Key): (found: seq<nat>)
    ensures forall i :: 0 <= i < |found| ==> found[i] < |instructions| && instructions[found[i]].programId == programId
  {
    if instructions == [] then []
    else
      var n := |instructions| - 1;
      OfProgram(instructions[..n], programId) + if instructions[n].programId == programId then [n] else []
  }

  predicate IsCreateNamespace(instruction: RpcInstruction) {
    && instruction.Raw?
    && instruction.data.Some?
    && instruction.data.value != []
    && instruction.data.value[0] == CREATE_NAMESPACE_TAG
  }

  function Select(found: seq<nat>, instructions: seq<RpcInstruction>, creates: bool): (kept: seq<nat>)
    requires forall i :: 0 <= i < |found| ==> found[i] < |instructions|
    ensures forall i :: 0 <= i < |kept| ==>
              kept[i] in found && IsCreateNamespace(instructions[kept[i]]) == creates
  {
    if found == [] then []
    else
      var n := |found| - 1;
      Select(found[..n], instructions, creates)
      + if IsCreateNamespace(instructions[found[n]]) == creates then [found[n]] else []
  }

  /** The one settlement among the top-level instructions, alone or beside the opening of its namespace. */
  function FindSettlement(instructions: seq<RpcInstruction>, programId: Key): (r: Option<nat>)
    ensures r.Some? ==> r.value < |instructions| && instructions[r.value].Raw?
                        && instructions[r.value].programId == programId
  {
    var mine := OfProgram(instructions, programId);
    if exists i :: 0 <= i < |mine| && !instructions[mine[i]].Raw? then None
    else
      var creates, settlements := Select(mine, instructions, true), Select(mine, instructions, false);
      if |creates| > 1 || |settlements| != 1 then None
      else
        assert settlements[0] in mine;
        var accounts := instructions[settlements[0]].accounts;
        if |creates| == 1
           && (|instructions[creates[0]].accounts| != 4 || |accounts| < 3
               || instructions[creates[0]].accounts[2] != accounts[2]) then None
        else Some(settlements[0])
  }

  /** The instruction opens the namespace that the settlement settles in. */
  predicate OpensFor(creation: RpcInstruction, settlement: RpcInstruction) {
    && IsCreateNamespace(creation) && settlement.Raw?
    && |creation.accounts| == 4 && |settlement.accounts| >= 3 && creation.accounts[2] == settlement.accounts[2]
  }

  /**
    Instruction `i` is the program's settlement: the endpoint left all of the
    program's instructions raw, and there is no other but at most one, which
    opens the settlement's own namespace.
   */
  ghost predicate IsLoneSettlement(instructions: seq<RpcInstruction>, programId: Key, i: nat) {
    && i < |instructions| && instructions[i].programId == programId && !IsCreateNamespace(instructions[i])
    && (forall j :: 0 <= j < |instructions| && instructions[j].programId == programId ==> instructions[j].Raw?)
    && (forall j :: 0 <= j < |instructions| && j != i && instructions[j].programId == programId ==>
          OpensFor(instructions[j], instructions[i]))
    && forall j, k :: 0 <= j < k < |instructions| && j != i && k != i ==>
         instructions[j].programId != programId || instructions[k].programId != programId
  }

  ghost predicate IsAscending(found: seq<nat>) {
    forall i, j :: 0 <= i < j < |found| ==> found[i] < found[j]
  }

  lemma {:induction false} OfProgramLists(instructions: seq<RpcInstruction>, programId: Key)
    ensures IsAscending(OfProgram(instructions, programId))
    ensures forall i: nat :: i in OfProgram(instructions, programId) <==>
                             i < |instructions| && instructions[i].programId == programId
  {
    if instructions != [] {
      OfProgramLists(instructions[..|instructions| - 1], programId);
    }
  }

  lemma SelectLast(found: seq<nat>, instructions: seq<RpcInstruction>, creates: bool)
    requires found != [] && forall i :: 0 <= i < |found| ==> found[i] < |instructions|
    ensures var n := |found| - 1;
            Select(found, instructions, creates) ==
            Select(found[..n], instructions, creates)
            + if IsCreateNamespace(instructions[found[n]]) == creates then [found[n]] else []
  {}

  lemma {:induction false} SelectLists(found: seq<nat>, instructions: seq<RpcInstruction>, creates: bool)
    requires IsAscending(found) && forall i :: 0 <= i < |found| ==> found[i] < |instructions|
    ensures IsAscending(Select(found, instructions, creates))
    ensures forall i: nat :: i in Select(found, instructions, creates) <==>
                             i in found && IsCreateNamespace(instructions[i]) == creates
  {
    hide IsCreateNamespace;
    if found != [] {
      var n := |found| - 1;
      SelectLists(found[..n], instructions, creates);
      SelectLast(found, instructions, creates);
      assert found == found[..n] + [found[n]];
      hide Select;
    }
  }

  /** The program's instructions, those that open namespaces and the others, by place. */
  lemma SelectedByPlace(instructions: seq<RpcInstruction>, programId: Key, creates: bool)
    ensures var found := Select(OfProgram(instructions, programId), instructions, creates);
            && IsAscending(found)
            && forall i: nat :: i in found <==> && i < |instructions| && instructions[i].programId == programId
                                                && IsCreateNamespace(instructions[i]) == creates
  {
    hide IsCreateNamespace, OfProgram, Select;
    OfProgramLists(instructions, programId);
    SelectLists(OfProgram(instructions, programId), instructions, creates);
  }

  lemma TwoMembers(s: seq<nat>)
    requires IsAscending(s) && |s| > 1
    ensures s[0] in s && s[1] in s && s[0] != s[1]
  {}

  lemma SingleMember(s: seq<nat>, x: nat)
    requires IsAscending(s) && forall y :: y in s <==> y == x
    ensures s == [x]
  {
    assert x in s;
    if |s| > 1 {
      TwoMembers(s);
    }
    assert s[0] in s;
  }

  lemma FoundIsLone(instructions: seq<RpcInstruction>, programId: Key, i: nat)
    requires FindSettlement(instructions, programId) == Some(i)
    ensures IsLoneSettlement(instructions, programId, i)
  {
    hide IsCreateNamespace, OfProgram, Select;
    OfProgramLists(instructions, programId);
    SelectedByPlace(instructions, programId, true);
    SelectedByPlace(instructions, programId, false);
    var mine := OfProgram(instructions, programId);
    var creates, settlements := Select(mine, instructions, true), Select(mine, instructions, false);
    assert settlements == [i] && i in settlements;
    forall j: nat | j < |instructions| && j != i && instructions[j].programId == programId
      ensures creates == [j] && OpensFor(instructions[j], instructions[i])
    {
      assert j !in settlements && j in creates && i in mine && j in mine;
    }
    forall j: nat | j < |instructions| && instructions[j].programId == programId
      ensures instructions[j].Raw?
    {
      assert j in mine;
    }
  }

  lemma LoneIsFound(instructions: seq<RpcInstruction>, programId: Key, i: nat)
    requires IsLoneSettlement(instructions, programId, i)
    ensures FindSettlement(instructions, programId) == Some(i)
  {
    hide IsCreateNamespace, OfProgram, Select;
    OfProgramLists(instructions, programId);
    SelectedByPlace(instructions, programId, true);
    SelectedByPlace(instructions, programId, false);
    var mine := OfProgram(instructions, programId);
    var creates, settlements := Select(mine, instructions, true), Select(mine, instructions, false);
    SingleMember(settlements, i);
    if |creates| > 1 {
      TwoMembers(creates);
    }
    if creates != [] {
      assert creates[0] in creates;
    }
    assert forall x :: 0 <= x < |mine| ==> mine[x] in mine && instructions[mine[x]].Raw?;
  }

  /** What is found is the lone settlement, and it is found whenever there is one. */
  lemma FoundExactly(instructions: seq<RpcInstruction>, programId: Key, i: nat)
    ensures FindSettlement(instructions, programId) == Some(i) <==> IsLoneSettlement(instructions, programId, i)
  {
    hide FindSettlement, IsLoneSettlement;
    if FindSettlement(instructions, programId) == Some(i) {
      FoundIsLone(instructions, programId, i);
    }
    if IsLoneSettlement(instructions, programId, i) {
      LoneIsFound(instructions, programId, i);
    }
  }

  const MAX_SAFE_INTEGER: nat := 9007199254740991

  /** The system transfers among inner instructions; `None` when one cannot be read. */
  function SystemTransfers(inner: seq<RpcInstruction>): Option<seq<Transfer>> {
    if inner == [] then Some([])
    else
      var n := |inner| - 1;
      match SystemTransfers(inner[..n])
      case None => None
      case Some(before) =>
        if !inner[n].Decoded? then Some(before)
        else
          match inner[n].parsed
          case SystemTransfer(source, destination, lamports) =>
            if lamports > MAX_SAFE_INTEGER then None else Some(before + [Transfer(source, destination, lamports)])
          case MalformedTransfer => None
          case _ => Some(before)
  }

  function MemoOf(instructions: seq<RpcInstruction>, memoProgram: Key): Option<Memo> {
    var memos := OfProgram(instructions, memoProgram);
    if |memos| != 1 || !instructions[memos[0]].Decoded? || !instructions[memos[0]].parsed.MemoText? then None
    else instructions[memos[0]].parsed.fields
  }

  function GroupAt(inner: seq<Group>, index: nat): Option<seq<RpcInstruction>> {
    if inner == [] then None
    else if inner[0].index == index then Some(inner[0].instructions)
    else GroupAt(inner[1..], index)
  }

  function Observe(client: Client, tx: RpcTransaction, signature: string): Result<Observation, Code> {
    if !tx.succeeded then Err(TX_FAILED)
    else if signature !in tx.signatures then Err(TX_SIGNATURE)
    else if tx.blockTime.None? then Err(BLOCK_TIME_MISSING)
    else
      match FindSettlement(tx.instructions, client.env.programId)
      case None => Err(PROGRAM_INSTRUCTION)
      case Some(index) =>
        var settlement := tx.instructions[index];
        if settlement.data.None? then Err(INSTRUCTION_DATA)
        else
          match DecodeSettleNData(settlement.data.value)
          case None => Err(INSTRUCTION_DATA)
          case Some(decoded) =>
            var accounts, count := settlement.accounts, |decoded.bps|;
            if |accounts| != count + 5 then Err(ACCOUNT_LAYOUT)
            else if accounts[3 + count] != RecordAddress(client.env, accounts[2], decoded.eventId)
                    || accounts[4 + count] != SYSTEM_PROGRAM then Err(ACCOUNT_LAYOUT)
            else
              match MemoOf(tx.instructions, client.memoProgram)
              case None => Err(MEMO_MISSING)
              case Some(memo) =>
                match GroupAt(tx.inner, index)
                case None => Err(TRANSFER_MISMATCH)
                case Some(inner) =>
                  match SystemTransfers(inner)
                  case None => Err(TRANSFER_MISMATCH)
                  case Some(transfers) =>
                    Ok(Observation(signature, tx.slot, tx.blockTime.value, accounts[0], accounts[1], accounts[2],
                                   accounts[3 + count], decoded.eventId, decoded.amount, decoded.bps,
                                   accounts[3..3 + count], transfers, memo))
  }

  // ----- Reconciling it with a request -----

  /** The memo the client writes beside a settlement. */
  function MemoFor(request: Request, total: nat): Memo {
    map["protocol" := Str("synxed-settlement"), "event" := Str(request.eventId), "occurredAt" := Str(request.occurredAt),
        "kind" := Str(request.kind), "asset" := Str(request.asset), "lamports" := Str(Decimal(total)),
        "memo" := Str(request.memo)]
  }

  predicate Says(memo: Memo, field: string, text: string) {
    field in memo && memo[field] == Str(text)
  }

  predicate MemoMatches(memo: Memo, request: Request, total: nat) {
    && Says(memo, "protocol", "synxed-settlement")
    && Says(memo, "event", request.eventId)
    && Says(memo, "kind", request.kind)
    && Says(memo, "lamports", Decimal(total))
    && Says(memo, "memo", request.memo)
    && Says(memo, "occurredAt", request.occurredAt)
    && Says(memo, "asset", request.asset)
  }

  function Texts(keys: seq<Key>): seq<string> {
    seq(|keys|, i requires 0 <= i < |keys| => Base58(keys[i]))
  }

  function RecipientsOf(shares: seq<Share>): (r: seq<string>)
    ensures |r| == |shares|
  {
    seq(|shares|, i requires 0 <= i < |shares| => shares[i].recipient)
  }

  /** One key per nonzero payout. */
  function ExpectedKeys(payer: string, recipients: seq<string>, amounts: seq<nat>): seq<string>
    requires |recipients| == |amounts|
  {
    if recipients == [] then []
    else
      var n := |recipients| - 1;
      ExpectedKeys(payer, recipients[..n], amounts[..n])
      + if amounts[n] == 0 then [] else [TransferKey(payer, recipients[n], amounts[n])]
  }

  /** One key per observed transfer, but for those to the record. */
  function ObservedKeys(transfers: seq<Transfer>, record: string): seq<string> {
    if transfers == [] then []
    else
      var n := |transfers| - 1;
      var t := transfers[n];
      ObservedKeys(transfers[..n], record)
      + if t.destination == record then [] else [TransferKey(t.source, t.destination, t.amount)]
  }

  datatype PayoutLine = PayoutLine(role: string, recipient: string, bps: int, amount: nat, beneficiaryId: Option<string>)

  /** An entry's id hashes these three fields, NUL-separated; here it is that text. */
  datatype LedgerEntry = LedgerEntry(entryId: string, beneficiaryId: string, role: string, wallet: string, amount: nat)

  datatype SettlementRecord = SettlementRecord(eventId: string, signature: string, namespace: Key, authority: Key,
                                               payer: Key, amountAtomic: int, scale: int, payouts: seq<PayoutLine>)

  datatype Reconciliation = Reconciliation(record: SettlementRecord, entries: seq<LedgerEntry>, pools: seq<PayoutLine>)

  const POOL_LABEL := "rewards_pool"

  function CanonicalRole(name: string): string {
    if name == "synxed" then "platform" else name
  }

  function EntryId(signature: string, role: string, beneficiaryId: string): string {
    signature + [NUL] + (role + [NUL] + beneficiaryId)
  }

  function Payout(share: Share, amount: nat, ids: map<string, string>): PayoutLine {
    PayoutLine(CanonicalRole(share.name), share.recipient, share.bps, amount,
               if share.name == POOL_LABEL then None
               else if share.name in ids then Some(ids[share.name])
               else Some("wallet:" + share.recipient))
  }

  function PayoutLines(shares: seq<Share>, amounts: seq<nat>, ids: map<string, string>): (lines: seq<PayoutLine>)
    requires |shares| == |amounts|
    ensures |lines| == |shares|
  {
    seq(|shares|, i requires 0 <= i < |shares| => Payout(shares[i], amounts[i], ids))
  }

  /** Direct payouts, as entries. */
  function EntriesOf(signature: string, lines: seq<PayoutLine>): seq<LedgerEntry> {
    if lines == [] then []
    else
      var n := |lines| - 1;
      var line := lines[n];
      EntriesOf(signature, lines[..n])
      + if line.beneficiaryId.None? then []
        else [LedgerEntry(EntryId(signature, line.role, line.beneficiaryId.value), line.beneficiaryId.value,
                          line.role, line.recipient, line.amount)]
  }

  function PoolsOf(lines: seq<PayoutLine>): seq<PayoutLine> {
    if lines == [] then []
    else
      var n := |lines| - 1;
      PoolsOf(lines[..n]) + if lines[n].beneficiaryId.None? then [lines[n]] else []
  }

  function Reconcile(client: Client, observation: Observation, request: Request, namespace: Key, scale: int,
                     ids: map<string, string>): (r: Result<Reconciliation, Code>)
  {
    var total := request.amountAtomic * scale;
    var bps := BpsOfShares(request.shares);
    if !RequestValid(request) then Err(PROTOCOL)
    else if scale <= 0 then Err(SCALE_RANGE)
    else if Base58(observation.namespace) != Base58(namespace) then Err(NAMESPACE_MISMATCH)
    else if request.eventId == "" then Err(PROTOCOL)
    else if observation.eventSeed != client.eventSeed(request.eventId) then Err(EVENT_MISMATCH)
    else if observation.amount != total then Err(AMOUNT_MISMATCH)
    else if request.asset != NATIVE_ASSET then Err(ASSET_MISMATCH)
    else if observation.bps != bps then Err(SHARES_MISMATCH)
    else if Texts(observation.recipients) != RecipientsOf(request.shares) then Err(RECIPIENT_MISMATCH)
    else if !MemoMatches(observation.memo, request, observation.amount) then Err(MEMO_MISMATCH)
    else
      match SharesOf(observation.amount, observation.bps)
      case Err(_) => Err(PROTOCOL)
      case Ok(amounts) =>
        var expected := ExpectedKeys(Base58(observation.payer), RecipientsOf(request.shares), amounts);
        var observed := ObservedKeys(observation.transfers, Base58(observation.record));
        if Sort(expected) != Sort(observed) then Err(TRANSFER_MISMATCH)
        else if exists name <- ids :: Trim(ids[name]) == "" then Err(RECIPIENT_MISMATCH)
        else
          var lines := PayoutLines(request.shares, amounts, ids);
          Ok(Reconciliation(SettlementRecord(request.eventId, observation.signature, observation.namespace,
                                             observation.authority, observation.payer, request.amountAtomic, scale, lines),
                            EntriesOf(observation.signature, lines), PoolsOf(lines)))
  }

  /** Observe and reconcile one transaction. */
  function Judge(client: Client, tx: RpcTransaction, signature: string, request: Request, namespace: Key, scale: int,
                 ids: map<string, string>): Result<Reconciliation, Code>
  {
    match Observe(client, tx, signature)
    case Err(code) => Err(code)
    case Ok(observation) => Reconcile(client, observation, request, namespace, scale, ids)
  }

  // ----- Building one -----

  datatype BuildError = AssetMode | ScaleRange | AmountTooLarge | BadRequest | RecipientPubkey | EmptyEventId
                      | NotEncoded(error: EncodeError) | RecipientIsRecord | RecipientIsNamespace

  datatype Built = Built(memo: Memo, metas: seq<Meta>, data: seq<byte>)

  function KeysOf(texts: seq<string>): (r: Option<seq<Key>>)
    ensures r.Some? ==> |r.value| == |texts| && Texts(r.value) == texts
  {
    if texts == [] then Some([])
    else
      var n := |texts| - 1;
      match (KeysOf(texts[..n]), KeyOf(texts[n]))
      case (Some(keys), Some(key)) =>
        assert Texts(keys + [key]) == Texts(keys) + [Base58(key)] == texts;
        Some(keys + [key])
      case _ => None
  }

  function Writable(keys: seq<Key>): (metas: seq<Meta>)
    ensures |metas| == |keys|
    ensures forall i :: 0 <= i < |keys| ==> metas[i] == Meta(keys[i], false, true)
  {
    seq(|keys|, i requires 0 <= i < |keys| => Meta(keys[i], false, true))
  }

  /** The first recipient that is the event's record or the namespace. */
  function ProgramRecipient(recipients: seq<Key>, record: Key, namespace: Key): (e: Option<BuildError>)
    ensures e.None? <==> record !in recipients && namespace !in recipients
  {
    if recipients == [] then None
    else if recipients[0] == record then Some(RecipientIsRecord)
    else if recipients[0] == namespace then Some(RecipientIsNamespace)
    else ProgramRecipient(recipients[1..], record, namespace)
  }

  /** The unsigned settlement of a request: its memo and its instruction. */
  function Build(client: Client, request: Request, payer: Key, authority: Key, namespace: Key, scale: int)
    : Result<Built, BuildError>
  {
    var total := request.amountAtomic * scale;
    var bps := BpsOfShares(request.shares);
    if request.asset != NATIVE_ASSET then Err(AssetMode)
    else if scale <= 0 then Err(ScaleRange)
    else if total >= U64_LIMIT then Err(AmountTooLarge)
    else if !RequestValid(request) || Split(total, bps).Err? then Err(BadRequest)
    else
      match KeysOf(RecipientsOf(request.shares))
      case None => Err(RecipientPubkey)
      case Some(recipients) =>
        if request.eventId == "" then Err(EmptyEventId)
        else
          var seed := client.eventSeed(request.eventId);
          var record := RecordAddress(client.env, namespace, seed);
          match EncodedSettleN(seed, total, bps)
          case Err(e) => Err(NotEncoded(e))
          case Ok(data) =>
            if ProgramRecipient(recipients, record, namespace).Some? then
              Err(ProgramRecipient(recipients, record, namespace).value)
            else
              Ok(Built(MemoFor(request, total),
                       [Meta(payer, true, true), Meta(authority, true, false), Meta(namespace, false, false)]
                       + Writable(recipients)
                       + [Meta(record, false, true), Meta(SYSTEM_PROGRAM, false, false)],
                       data))
  }
}

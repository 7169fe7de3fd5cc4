/** The history search against the chain: what it finds is the transaction that created the record. */
module SearchLaws {
  import opened Basics
  import opened Splits
  import opened Codec
  import opened Program
  import opened Accounting
  import opened Runs
  import opened Evidence
  import opened Cluster
  import opened EvidenceLaws
  import opened Search

  // ----- What the finder recognises -----

  ghost predicate SettlesHere(metas: seq<Meta>, data: seq<byte>, namespace: Key, seed: Key) {
    SettledEvent(data) == Some(seed) && |metas| > 2 && metas[2].key == namespace
  }

  /** A settlement the program accepts is one the finder recognises. */
  lemma SettlementRecognised(env: Env, metas: seq<Meta>, data: seq<byte>, q: Query)
    requires q.programId == env.programId && SettlesHere(metas, data, q.namespace, q.seed)
    ensures SettlesEvent(Raw(env.programId, KeysIn(metas), Some(data)), q.programId, q.namespace, q.seed)
  {}

  /** Of the data the program can read, the finder recognises only settlements of the event. */
  lemma RecognisedSettlement(env: Env, metas: seq<Meta>, data: seq<byte>, q: Query)
    requires SettlesEvent(Raw(env.programId, KeysIn(metas), Some(data)), q.programId, q.namespace, q.seed)
    requires Unpack(data).Some?
    ensures SettlesHere(metas, data, q.namespace, q.seed)
  {
    assert data[1..][..32] == data[1..33];
  }

  // ----- A creating transaction always shows a settlement -----

  /** No call in the transaction derives the address of `seeds` from other seeds. */
  ghost predicate NoCollision(env: Env, instructions: seq<TxInstruction>, seeds: seq<byte>) {
    forall i :: 0 <= i < |instructions| ==>
      match instructions[i]
      case Call(metas, data) => !Collides(env, Instruct(metas, data), seeds)
      case Note(_) => true
      case Foreign(_, ops) => NoOpCollision(env, ops, seeds)
  }

  ghost predicate NoOpCollision(env: Env, ops: seq<Op>, seeds: seq<byte>) {
    forall i :: 0 <= i < |ops| && ops[i].Cpi? ==> !Collides(env, Instruct(ops[i].metas, ops[i].data), seeds)
  }

  /** Some invocation in the log settles the event. */
  ghost predicate Logs(log: seq<Logged>, namespace: Key, seed: Key) {
    exists i :: 0 <= i < |log| && log[i].Invoked? && SettlesHere(log[i].metas, log[i].data, namespace, seed)
  }

  lemma {:induction false} OpsShowIt(env: Env, a: Accounts, ops: seq<Op>, namespace: Key, seed: Key)
    requires env.Valid() && Inv(env, a) && LegalOps(env, a, ops) && OpsRun(env, a, ops).Some?
    requires NoOpCollision(env, ops, RecordSeeds(namespace, seed))
    requires !Owned(env, a, RecordAddress(env, namespace, seed))
    requires Owned(env, OpsRun(env, a, ops).value.0, RecordAddress(env, namespace, seed))
    ensures Logs(OpsRun(env, a, ops).value.1, namespace, seed)
  {
    var n := |ops| - 1;
    var record := RecordAddress(env, namespace, seed);
    assert forall i :: 0 <= i < n ==> ops[..n][..i] == ops[..i];
    OpsEvolve(env, a, ops[..n]);
    var (middle, log) := OpsRun(env, a, ops[..n]).value;
    hide Inv, Evolves, Process;
    var whole := OpsRun(env, a, ops).value.1;
    assert log == whole[..|log|];
    if Owned(env, middle, record) {
      OpsShowIt(env, a, ops[..n], namespace, seed);
      var i :| 0 <= i < |log| && log[i].Invoked? && SettlesHere(log[i].metas, log[i].data, namespace, seed);
      assert whole[i] == log[i];
    } else {
      match ops[n]
      case Alien(next) => RecordNeedsAuthority(env, middle, Outside(next), namespace, seed);
      case Cpi(metas, data, tolerated) =>
        RecordNeedsAuthority(env, middle, Instruct(metas, data), namespace, seed);
        assert whole[|log|] == Invoked(metas, data, false);
    }
  }

  /** The instruction that brings the record into being, at top level or in what it logs. */
  lemma InstructionShowsIt(env: Env, a: Accounts, instruction: TxInstruction, namespace: Key, seed: Key)
    requires env.Valid() && Inv(env, a) && InstructionRun(env, a, instruction).Some?
    requires instruction.Foreign? ==> LegalOps(env, a, instruction.ops)
    requires NoCollision(env, [instruction], RecordSeeds(namespace, seed))
    requires !Owned(env, a, RecordAddress(env, namespace, seed))
    requires Owned(env, InstructionRun(env, a, instruction).value.0, RecordAddress(env, namespace, seed))
    ensures || (instruction.Call? && SettlesHere(instruction.metas, instruction.data, namespace, seed))
            || Logs(InstructionRun(env, a, instruction).value.1, namespace, seed)
  {
    assert [instruction][0] == instruction;
    match instruction
    case Call(metas, data) => RecordNeedsAuthority(env, a, Instruct(metas, data), namespace, seed);
    case Note(_) =>
    case Foreign(_, ops) => OpsShowIt(env, a, ops, namespace, seed);
  }

  /** Instruction `i` settles the event at top level, or logs an invocation that does. */
  ghost predicate Shows(instructions: seq<TxInstruction>, logs: seq<seq<Logged>>, i: nat, namespace: Key, seed: Key)
    requires i < |instructions| && |logs| == |instructions|
  {
    || (instructions[i].Call? && SettlesHere(instructions[i].metas, instructions[i].data, namespace, seed))
    || Logs(logs[i], namespace, seed)
  }

  lemma {:induction false} ExecutionShowsIt(env: Env, a: Accounts, instructions: seq<TxInstruction>, namespace: Key, seed: Key)
    returns (i: nat)
    requires env.Valid() && Inv(env, a) && LegalInstructions(env, a, instructions)
    requires Execute(env, a, instructions).Some? && NoCollision(env, instructions, RecordSeeds(namespace, seed))
    requires !Owned(env, a, RecordAddress(env, namespace, seed))
    requires Owned(env, Execute(env, a, instructions).value.accounts, RecordAddress(env, namespace, seed))
    ensures i < |instructions| && Shows(instructions, Execute(env, a, instructions).value.logs, i, namespace, seed)
  {
    var n := |instructions| - 1;
    assert forall k :: 0 <= k < n ==> instructions[..n][..k] == instructions[..k];
    ExecuteEvolves(env, a, instructions[..n]);
    var run := Execute(env, a, instructions[..n]).value;
    hide Inv, Evolves, InstructionRun;
    var logs := Execute(env, a, instructions).value.logs;
    assert forall k :: 0 <= k < n ==> logs[k] == run.logs[k];
    if Owned(env, run.accounts, RecordAddress(env, namespace, seed)) {
      i := ExecutionShowsIt(env, a, instructions[..n], namespace, seed);
    } else {
      InstructionShowsIt(env, run.accounts, instructions[n], namespace, seed);
      i := n;
    }
  }

  lemma {:induction false} GroupInRender(env: Env, logs: seq<seq<Logged>>, i: nat) returns (g: nat)
    requires i < |logs| && logs[i] != []
    ensures g < |RenderGroups(env, logs)| && RenderGroups(env, logs)[g].instructions == RenderLog(env, logs[i])
  {
    var n := |logs| - 1;
    if i == n {
      g := |RenderGroups(env, logs)| - 1;
    } else {
      g := GroupInRender(env, logs[..n], i);
    }
  }

  /** A transaction that created the record shows a settlement of it, wherever it was invoked. */
  lemma CreatorShowsIt(client: Client, answer: RpcTransaction, landing: Landing, q: Query)
    requires ClientValid(client) && Honest(client, answer, landing) && q.programId == client.env.programId
    requires Inv(client.env, landing.before) && LegalInstructions(client.env, landing.before, landing.tx.instructions)
    requires landing.outcome == Execute(client.env, landing.before, landing.tx.instructions)
    requires CreatesRecord(client.env, landing, q.namespace, q.seed)
    requires NoCollision(client.env, landing.tx.instructions, RecordSeeds(q.namespace, q.seed))
    ensures answer.succeeded && SettlementIn(answer, q).Some?
  {
    var env, instructions := client.env, landing.tx.instructions;
    var i := ExecutionShowsIt(env, landing.before, instructions, q.namespace, q.seed);
    var logs: seq<seq<Logged>> := landing.outcome.value.logs;
    hide Inv, LegalInstructions, Execute, SettlesHere, SettlesEvent, RenderGroups;
    if instructions[i].Call? && SettlesHere(instructions[i].metas, instructions[i].data, q.namespace, q.seed) {
      SettlementRecognised(env, instructions[i].metas, instructions[i].data, q);
      assert answer.instructions[i] == RenderTop(client, instructions[i]);
      assert Matches(answer.instructions, q);
    } else {
      var k :| 0 <= k < |logs[i]| && logs[i][k].Invoked?
               && SettlesHere(logs[i][k].metas, logs[i][k].data, q.namespace, q.seed);
      SettlementRecognised(env, logs[i][k].metas, logs[i][k].data, q);
      var g := GroupInRender(env, logs, i);
      assert answer.inner[g].instructions[k] == RenderLogged(env, logs[i][k]);
      assert Matches(answer.inner[g].instructions, q);
    }
  }

  // ----- What an honest endpoint lists -----

  /** The archive tells the truth about every landed transaction it knows. */
  ghost predicate HonestArchive(client: Client, c: Chain, archive: Archive) {
    forall j :: 0 <= j < |c.landed| && c.landed[j].tx.signature in archive ==>
                  Honest(client, archive[c.landed[j].tx.signature], c.landed[j])
  }

  /** It is the entry of a landed transaction. */
  ghost predicate HasEntry(c: Chain, entry: Entry) {
    exists j :: 0 <= j < |c.landed| && IsEntryOf(entry, c.landed[j])
  }

  /** The history lists landed transactions only. */
  ghost predicate HonestHistory(c: Chain, history: seq<Entry>) {
    forall i :: 0 <= i < |history| ==> HasEntry(c, history[i])
  }

  /** It also lists every one that changed the record's account. */
  ghost predicate CompleteHistory(c: Chain, record: Key, history: seq<Entry>) {
    && HonestHistory(c, history)
    && (forall j :: 0 <= j < |c.landed| && c.landed[j].outcome.Some?
                    && At(c.landed[j].before, record) != At(c.landed[j].outcome.value.accounts, record) ==>
          exists i :: 0 <= i < |history| && IsEntryOf(history[i], c.landed[j]))
  }

  predicate IsEntryOf(entry: Entry, landing: Landing) {
    entry.signature == landing.tx.signature && entry.failed == landing.outcome.None?
  }

  lemma {:induction false} CandidatesFrom(history: seq<Entry>, archive: Archive, q: Query, m: nat) returns (i: nat)
    requires m < |Candidates(history, archive, q)|
    ensures i < |history| && !history[i].failed && history[i].signature in archive
    ensures FoundIn(history[i].signature, archive[history[i].signature], q) == [Candidates(history, archive, q)[m]]
  {
    var n := |history| - 1;
    if m < |Candidates(history[..n], archive, q)| {
      i := CandidatesFrom(history[..n], archive, q, m);
    } else {
      i := n;
    }
  }

  lemma {:induction false} CandidateIn(history: seq<Entry>, archive: Archive, q: Query, i: nat) returns (m: nat)
    requires i < |history| && !history[i].failed && history[i].signature in archive
    requires FoundIn(history[i].signature, archive[history[i].signature], q) != []
    ensures m < |Candidates(history, archive, q)|
    ensures [Candidates(history, archive, q)[m]] == FoundIn(history[i].signature, archive[history[i].signature], q)
  {
    var n := |history| - 1;
    if i == n {
      m := |Candidates(history[..n], archive, q)|;
    } else {
      m := CandidateIn(history[..n], archive, q, i);
    }
  }

  /** The transaction settles the event with a top-level instruction of the program. */
  ghost predicate SettlesAtTop(instructions: seq<TxInstruction>, namespace: Key, seed: Key) {
    exists i :: 0 <= i < |instructions| && instructions[i].Call?
                && SettlesHere(instructions[i].metas, instructions[i].data, namespace, seed)
  }

  lemma TopLevelShown(client: Client, answer: RpcTransaction, landing: Landing, q: Query)
    requires WellTyped(client, landing.tx.instructions) && Honest(client, answer, landing)
    requires q.programId == client.env.programId && landing.outcome.Some? && client.memoProgram != client.env.programId
    requires landing.outcome == Execute(client.env, landing.before, landing.tx.instructions)
    ensures Matches(answer.instructions, q) <==> SettlesAtTop(landing.tx.instructions, q.namespace, q.seed)
  {
    var instructions := landing.tx.instructions;
    if i :| 0 <= i < |answer.instructions| && SettlesEvent(answer.instructions[i], q.programId, q.namespace, q.seed) {
      assert answer.instructions[i] == RenderTop(client, instructions[i]);
      ExecutePrefix(client.env, landing.before, instructions, i);
      RecognisedSettlement(client.env, instructions[i].metas, instructions[i].data, q);
    }
    if i :| 0 <= i < |instructions| && instructions[i].Call?
            && SettlesHere(instructions[i].metas, instructions[i].data, q.namespace, q.seed) {
      assert answer.instructions[i] == RenderTop(client, instructions[i]);
      SettlementRecognised(client.env, instructions[i].metas, instructions[i].data, q);
    }
  }

  lemma CreatorEntry(env: Env, c: Chain, k: nat, history: seq<Entry>, namespace: Key, seed: Key) returns (i: nat)
    requires k < |c.landed| && CreatesRecord(env, c.landed[k], namespace, seed)
    requires CompleteHistory(c, RecordAddress(env, namespace, seed), history)
    ensures i < |history| && IsEntryOf(history[i], c.landed[k])
  {
    hide RecordAddress;
    i :| 0 <= i < |history| && IsEntryOf(history[i], c.landed[k]);
  }

  lemma LandedSoundly(env: Env, c: Chain, k: nat)
    requires ChainInv(env, c) && k < |c.landed|
    ensures var landing := c.landed[k];
            && Inv(env, landing.before) && LegalInstructions(env, landing.before, landing.tx.instructions)
            && landing.outcome == Execute(env, landing.before, landing.tx.instructions)
  {}

  /**
    The search and the chain. When a record's creating transaction landed and
    the history is complete, the one candidate of a fully read history is that
    transaction: a decoy can only add candidates, never take its place.
   */
  lemma FoundIsCreator(client: Client, c: Chain, k: nat, history: seq<Entry>, archive: Archive, q: Query,
                       maxSignatures: int, found: Found)
    requires ClientValid(client) && ChainInv(client.env, c) && k < |c.landed| && q.programId == client.env.programId
    requires WellTyped(client, c.landed[k].tx.instructions)
    requires CreatesRecord(client.env, c.landed[k], q.namespace, q.seed)
    requires NoCollision(client.env, c.landed[k].tx.instructions, RecordSeeds(q.namespace, q.seed))
    requires HonestArchive(client, c, archive)
    requires CompleteHistory(c, RecordAddress(client.env, q.namespace, q.seed), history)
    requires AllKnown(history, archive) && Verdict(history, archive, q, maxSignatures) == Some(found)
    ensures found.signature == c.landed[k].tx.signature
    ensures found.topLevel <==> SettlesAtTop(c.landed[k].tx.instructions, q.namespace, q.seed)
  {
    hide Inv, LegalInstructions, Execute, Honest, Candidates, SettlementIn, ChainInv, CompleteHistory, NoCollision,
      WellTyped, CreatesRecord, SettlesAtTop, ClientValid;
    var landing := c.landed[k];
    var i := CreatorEntry(client.env, c, k, history, q.namespace, q.seed);
    CreatedOk(client.env, landing, q.namespace, q.seed);
    var answer := archive[history[i].signature];
    LandedSoundly(client.env, c, k);
    CreatorShowsIt(client, answer, landing, q);
    var m := CandidateIn(history, archive, q, i);
    DistinctPrograms(client);
    TopLevelShown(client, answer, landing, q);
    assert SettlementIn(answer, q) == Some(Matches(answer.instructions, q)) by {
      Labelled(answer, q);
    }
  }

  lemma Labelled(tx: RpcTransaction, q: Query)
    requires SettlementIn(tx, q).Some?
    ensures SettlementIn(tx, q).value == Matches(tx.instructions, q)
  {}

  /** A decoy: another successful transaction that names the event, its settlement having failed unnoticed. */
  ghost predicate IsDecoy(entry: Entry, archive: Archive, q: Query, creator: string) {
    && !entry.failed && entry.signature != creator && entry.signature in archive
    && FoundIn(entry.signature, archive[entry.signature], q) != []
  }

  /**
    A complete history shorter than the cap yields the creating transaction
    exactly when no decoy stands beside it.
   */
  lemma FoundUnlessDecoy(client: Client, c: Chain, k: nat, history: seq<Entry>, archive: Archive, q: Query, maxSignatures: int)
    requires ClientValid(client) && ChainInv(client.env, c) && k < |c.landed| && q.programId == client.env.programId
    requires WellTyped(client, c.landed[k].tx.instructions)
    requires CreatesRecord(client.env, c.landed[k], q.namespace, q.seed)
    requires NoCollision(client.env, c.landed[k].tx.instructions, RecordSeeds(q.namespace, q.seed))
    requires HonestArchive(client, c, archive) && AllKnown(history, archive)
    requires CompleteHistory(c, RecordAddress(client.env, q.namespace, q.seed), history)
    requires forall i, j :: 0 <= i < j < |history| ==> history[i].signature != history[j].signature
    requires |history| < maxSignatures
    ensures Verdict(history, archive, q, maxSignatures).Some? <==>
            forall i :: 0 <= i < |history| ==> !IsDecoy(history[i], archive, q, c.landed[k].tx.signature)
  {
    hide Inv, LegalInstructions, Execute, Honest, Candidates, SettlementIn, ChainInv, CompleteHistory, NoCollision,
      WellTyped, CreatesRecord, ClientValid;
    var landing := c.landed[k];
    var i := CreatorEntry(client.env, c, k, history, q.namespace, q.seed);
    CreatedOk(client.env, landing, q.namespace, q.seed);
    var answer := archive[history[i].signature];
    LandedSoundly(client.env, c, k);
    CreatorShowsIt(client, answer, landing, q);
    var m := CandidateIn(history, archive, q, i);
    var candidates := Candidates(history, archive, q);
    if j :| 0 <= j < |history| && IsDecoy(history[j], archive, q, landing.tx.signature) {
      var d := CandidateIn(history, archive, q, j);
      assert candidates[d].signature != candidates[m].signature;
    } else if |candidates| != 1 {
      SecondCandidate(history, archive, q, m, i);
    }
  }

  lemma CreatedOk(env: Env, landing: Landing, namespace: Key, seed: Key)
    requires CreatesRecord(env, landing, namespace, seed)
    ensures landing.outcome.Some?
  {}

  lemma DistinctPrograms(client: Client)
    requires ClientValid(client)
    ensures client.env.Valid() && client.memoProgram != client.env.programId
  {}

  /** Two candidates come from two entries. */
  lemma SecondCandidate(history: seq<Entry>, archive: Archive, q: Query, m: nat, i: nat)
    requires m < |Candidates(history, archive, q)| && |Candidates(history, archive, q)| > 1
    requires i < |history| && !history[i].failed
    requires forall i, j :: 0 <= i < j < |history| ==> history[i].signature != history[j].signature
    ensures exists j :: 0 <= j < |history| && j != i && IsDecoy(history[j], archive, q, history[i].signature)
  {
    var j, j' := TwoSources(history, archive, q);
    var other := if j == i then j' else j;
    assert IsDecoy(history[other], archive, q, history[i].signature);
  }

  lemma {:induction false} TwoSources(history: seq<Entry>, archive: Archive, q: Query) returns (i: nat, j: nat)
    requires |Candidates(history, archive, q)| > 1
    ensures i < j < |history|
    ensures forall k :: k == i || k == j ==>
              !history[k].failed && history[k].signature in archive
              && FoundIn(history[k].signature, archive[history[k].signature], q) != []
  {
    var n := |history| - 1;
    if |Candidates(history[..n], archive, q)| > 1 {
      i, j := TwoSources(history[..n], archive, q);
    } else {
      i := CandidatesFrom(history[..n], archive, q, 0);
      j := n;
    }
  }

  /**
    However incomplete the history, a candidate found at top level is the
    creating transaction: a transaction that settles at top level succeeds only
    by creating the record.
   */
  lemma TopLevelFoundCreates(client: Client, c: Chain, history: seq<Entry>, archive: Archive, q: Query,
                             maxSignatures: int, found: Found) returns (k: nat)
    requires ClientValid(client) && ChainInv(client.env, c) && q.programId == client.env.programId
    requires forall j :: 0 <= j < |c.landed| ==> WellTyped(client, c.landed[j].tx.instructions)
    requires HonestArchive(client, c, archive) && HonestHistory(c, history)
    requires Verdict(history, archive, q, maxSignatures) == Some(found) && found.topLevel
    ensures k < |c.landed| && c.landed[k].tx.signature == found.signature
    ensures CreatesRecord(client.env, c.landed[k], q.namespace, q.seed)
  {
    var i := CandidatesFrom(history, archive, q, 0);
    k :| 0 <= k < |c.landed| && IsEntryOf(history[i], c.landed[k]);
    var landing, answer := c.landed[k], archive[history[i].signature];
    hide Inv, LegalInstructions, Execute, Candidates, SettlementIn;
    assert FoundIn(history[i].signature, answer, q)[0] == found;
    Labelled(answer, q);
    TopLevelShown(client, answer, landing, q);
    var n :| 0 <= n < |landing.tx.instructions| && landing.tx.instructions[n].Call?
             && SettlesHere(landing.tx.instructions[n].metas, landing.tx.instructions[n].data, q.namespace, q.seed);
    TopLevelCreates(client.env, landing, n, q.namespace, q.seed);
  }
}

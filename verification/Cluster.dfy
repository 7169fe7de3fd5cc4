/** Transactions on the cluster: how they execute, what is recorded of them, and what holds ever after. */
module Cluster {
  import opened Basics
  import opened Codec
  import opened Program
  import opened Accounting
  import opened Runs
  import opened Text
  import opened Evidence

  // ----- Transactions -----

  /** What another program's instruction does: change other accounts, or call the settlement program. */
  datatype Op =
    | Alien(next: Accounts)
    | Cpi(metas: seq<Meta>, data: seq<byte>, tolerated: bool)  // `tolerated`: its failure is ignored

  datatype TxInstruction =
    | Call(metas: seq<Meta>, data: seq<byte>)
    | Note(fields: Option<Memo>)
    | Foreign(programId: Key, ops: seq<Op>)

  /** What the ledger logs under a top-level instruction, in order. */
  datatype Logged = Ran(inner: Inner) | Invoked(metas: seq<Meta>, data: seq<byte>, failed: bool)

  datatype Run = Run(accounts: Accounts, logs: seq<seq<Logged>>)

  function LogOf(inner: seq<Inner>): (l: seq<Logged>)
    ensures |l| == |inner|
  {
    seq(|inner|, i requires 0 <= i < |inner| => Ran(inner[i]))
  }

  function OpsRun(env: Env, a: Accounts, ops: seq<Op>): Option<(Accounts, seq<Logged>)> {
    if ops == [] then Some((a, []))
    else
      var n := |ops| - 1;
      match OpsRun(env, a, ops[..n])
      case None => None
      case Some((middle, log)) =>
        match ops[n]
        case Alien(next) => Some((next, log))
        case Cpi(metas, data, tolerated) =>
          match Process(env, middle, metas, data)
          case Ok(effect) => Some((effect.accounts, log + [Invoked(metas, data, false)] + LogOf(effect.inner)))
          case Err(_) => if tolerated then Some((middle, log + [Invoked(metas, data, true)])) else None
  }

  function InstructionRun(env: Env, a: Accounts, instruction: TxInstruction): Option<(Accounts, seq<Logged>)> {
    match instruction
    case Call(metas, data) =>
      (match Process(env, a, metas, data)
       case Ok(effect) => Some((effect.accounts, LogOf(effect.inner)))
       case Err(_) => None)
    case Note(_) => Some((a, []))
    case Foreign(_, ops) => OpsRun(env, a, ops)
  }

  /** Run a transaction's instructions in order; `None` when one fails, and the whole is undone. */
  function Execute(env: Env, a: Accounts, instructions: seq<TxInstruction>): (r: Option<Run>)
    ensures r.Some? ==> |r.value.logs| == |instructions|
  {
    if instructions == [] then Some(Run(a, []))
    else
      var n := |instructions| - 1;
      match Execute(env, a, instructions[..n])
      case None => None
      case Some(run) =>
        match InstructionRun(env, run.accounts, instructions[n])
        case None => None
        case Some((b, log)) => Some(Run(b, run.logs + [log]))
  }

  /** What other programs can do to the accounts is what anyone outside may do. */
  ghost predicate LegalOps(env: Env, a: Accounts, ops: seq<Op>) {
    forall i :: 0 <= i < |ops| && ops[i].Alien? && OpsRun(env, a, ops[..i]).Some? ==>
                  LegalOutside(env, OpsRun(env, a, ops[..i]).value.0, ops[i].next)
  }

  ghost predicate LegalInstructions(env: Env, a: Accounts, instructions: seq<TxInstruction>) {
    forall i :: 0 <= i < |instructions| && instructions[i].Foreign? && Execute(env, a, instructions[..i]).Some? ==>
                  LegalOps(env, Execute(env, a, instructions[..i]).value.accounts, instructions[i].ops)
  }

  lemma {:induction false} OpsEvolve(env: Env, a: Accounts, ops: seq<Op>)
    requires env.Valid() && Inv(env, a) && LegalOps(env, a, ops) && OpsRun(env, a, ops).Some?
    ensures Inv(env, OpsRun(env, a, ops).value.0) && Evolves(env, a, OpsRun(env, a, ops).value.0)
  {
    if ops != [] {
      var n := |ops| - 1;
      assert forall i :: 0 <= i < n ==> ops[..n][..i] == ops[..i];
      OpsEvolve(env, a, ops[..n]);
      var middle := OpsRun(env, a, ops[..n]).value.0;
      match ops[n] {
        case Alien(next) => StepKeepsInv(env, middle, Outside(next));
        case Cpi(metas, data, tolerated) => StepKeepsInv(env, middle, Instruct(metas, data));
      }
      EvolvesTransitive(env, a, middle, OpsRun(env, a, ops).value.0);
    }
  }

  lemma InstructionEvolves(env: Env, a: Accounts, instruction: TxInstruction)
    requires env.Valid() && Inv(env, a) && InstructionRun(env, a, instruction).Some?
    requires instruction.Foreign? ==> LegalOps(env, a, instruction.ops)
    ensures Inv(env, InstructionRun(env, a, instruction).value.0)
    ensures Evolves(env, a, InstructionRun(env, a, instruction).value.0)
  {
    match instruction
    case Call(metas, data) => StepKeepsInv(env, a, Instruct(metas, data));
    case Note(_) =>
    case Foreign(_, ops) => OpsEvolve(env, a, ops);
  }

  lemma {:induction false} ExecuteEvolves(env: Env, a: Accounts, instructions: seq<TxInstruction>)
    requires env.Valid() && Inv(env, a) && LegalInstructions(env, a, instructions)
    requires Execute(env, a, instructions).Some?
    ensures Inv(env, Execute(env, a, instructions).value.accounts)
    ensures Evolves(env, a, Execute(env, a, instructions).value.accounts)
  {
    if instructions != [] {
      var n := |instructions| - 1;
      assert forall i :: 0 <= i < n ==> instructions[..n][..i] == instructions[..i];
      ExecuteEvolves(env, a, instructions[..n]);
      var middle := Execute(env, a, instructions[..n]).value.accounts;
      InstructionEvolves(env, middle, instructions[n]);
      EvolvesTransitive(env, a, middle, Execute(env, a, instructions).value.accounts);
    }
  }

  lemma ExecuteLast(env: Env, a: Accounts, instructions: seq<TxInstruction>)
    requires instructions != [] && Execute(env, a, instructions).Some?
    ensures var n := |instructions| - 1;
            && Execute(env, a, instructions[..n]).Some?
            && var run := Execute(env, a, instructions[..n]).value;
               && InstructionRun(env, run.accounts, instructions[n]).Some?
               && Execute(env, a, instructions).value.logs
                  == run.logs + [InstructionRun(env, run.accounts, instructions[n]).value.1]
  {
    hide InstructionRun;
  }

  /** The state a transaction's instruction `i` ran in, and what it did there. */
  lemma {:induction false} ExecutePrefix(env: Env, a: Accounts, instructions: seq<TxInstruction>, i: nat)
    requires Execute(env, a, instructions).Some? && i < |instructions|
    ensures Execute(env, a, instructions[..i]).Some?
    ensures var before := Execute(env, a, instructions[..i]).value.accounts;
            && InstructionRun(env, before, instructions[i]).Some?
            && Execute(env, a, instructions).value.logs[i] == InstructionRun(env, before, instructions[i]).value.1
  {
    hide Execute, InstructionRun;
    ExecuteLast(env, a, instructions);
    var n := |instructions| - 1;
    var front := instructions[..n];
    var run := Execute(env, a, front).value;
    if i < n {
      ExecutePrefix(env, a, front, i);
      assert front[..i] == instructions[..i] && front[i] == instructions[i];
      assert Execute(env, a, instructions).value.logs[i] == run.logs[i];
    } else {
      assert Execute(env, a, instructions).value.logs[n] == InstructionRun(env, run.accounts, instructions[n]).value.1;
    }
  }

  lemma EvolvesReflexive(env: Env, a: Accounts)
    ensures Evolves(env, a, a)
  {}

  /** Nothing after instruction `i` of a transaction undoes it. */
  lemma {:induction false} EvolvesWithin(env: Env, a: Accounts, instructions: seq<TxInstruction>, i: nat)
    requires env.Valid() && Inv(env, a) && LegalInstructions(env, a, instructions)
    requires Execute(env, a, instructions).Some? && i <= |instructions|
    ensures Execute(env, a, instructions[..i]).Some?
    ensures Inv(env, Execute(env, a, instructions[..i]).value.accounts)
    ensures Evolves(env, a, Execute(env, a, instructions[..i]).value.accounts)
    ensures Evolves(env, Execute(env, a, instructions[..i]).value.accounts, Execute(env, a, instructions).value.accounts)
  {
    hide Inv, Evolves, InstructionRun, LegalOps;
    var n := |instructions|;
    if i == n {
      assert instructions[..n] == instructions;
      assert Evolves(env, Execute(env, a, instructions).value.accounts, Execute(env, a, instructions).value.accounts) by {
        EvolvesReflexive(env, Execute(env, a, instructions).value.accounts);
      }
      ExecuteEvolves(env, a, instructions);
    } else {
      assert forall k :: 0 <= k < n - 1 ==> instructions[..n - 1][..k] == instructions[..k];
      assert instructions[..n - 1][..i] == instructions[..i];
      EvolvesWithin(env, a, instructions[..n - 1], i);
      var middle := Execute(env, a, instructions[..n - 1]).value.accounts;
      ExecuteEvolves(env, a, instructions[..n - 1]);
      InstructionEvolves(env, middle, instructions[n - 1]);
      EvolvesTransitive(env, Execute(env, a, instructions[..i]).value.accounts, middle,
                        Execute(env, a, instructions).value.accounts);
    }
  }

  // ----- The chain -----

  /** Signed bytes: what they say, until which height they can land, and the signature that names them. */
  datatype Tx = Tx(signature: string, instructions: seq<TxInstruction>, lastValidBlockHeight: nat)

  datatype Landing = Landing(tx: Tx, before: Accounts, outcome: Option<Run>)

  datatype Chain = Chain(accounts: Accounts, height: nat, landed: seq<Landing>)

  predicate HasLanded(c: Chain, tx: Tx) {
    exists i :: 0 <= i < |c.landed| && c.landed[i].tx.signature == tx.signature
  }

  predicate LandedOk(c: Chain, tx: Tx) {
    exists i :: 0 <= i < |c.landed| && c.landed[i].tx == tx && c.landed[i].outcome.Some?
  }

  function Land(env: Env, c: Chain, tx: Tx): Chain {
    var outcome := Execute(env, c.accounts, tx.instructions);
    c.(accounts := if outcome.Some? then outcome.value.accounts else c.accounts,
       landed := c.landed + [Landing(tx, c.accounts, outcome)])
  }

  /** One step of the cluster: time passes, someone else acts, or a transaction lands, once and in time. */
  ghost predicate ChainStep(env: Env, c: Chain, d: Chain) {
    || (c.height <= d.height && d == c.(height := d.height))
    || (LegalOutside(env, c.accounts, d.accounts) && d == c.(accounts := d.accounts))
    || exists tx: Tx ::
         && !HasLanded(c, tx)
         && c.height <= tx.lastValidBlockHeight
         && LegalInstructions(env, c.accounts, tx.instructions)
         && d == Land(env, c, tx)
  }

  /** What every reachable chain satisfies. */
  ghost predicate ChainInv(env: Env, c: Chain) {
    && Inv(env, c.accounts)
    && (forall i :: 0 <= i < |c.landed| ==>
          && Inv(env, c.landed[i].before)
          && LegalInstructions(env, c.landed[i].before, c.landed[i].tx.instructions)
          && c.landed[i].outcome == Execute(env, c.landed[i].before, c.landed[i].tx.instructions))
    && (forall i, j :: 0 <= i < j < |c.landed| ==>
          && c.landed[i].tx.signature != c.landed[j].tx.signature
          && (c.landed[i].outcome.Some? ==> Evolves(env, c.landed[i].outcome.value.accounts, c.landed[j].before)))
    && (forall i :: 0 <= i < |c.landed| && c.landed[i].outcome.Some? ==>
          Evolves(env, c.landed[i].outcome.value.accounts, c.accounts))
  }

  /** A later state of the chain: nothing landed is forgotten, nothing owned is undone. */
  ghost predicate Later(env: Env, c: Chain, d: Chain) {
    && c.height <= d.height
    && |c.landed| <= |d.landed|
    && (forall i :: 0 <= i < |c.landed| ==> d.landed[i] == c.landed[i])
    && (forall i :: |c.landed| <= i < |d.landed| ==> c.height <= d.landed[i].tx.lastValidBlockHeight)
    && Evolves(env, c.accounts, d.accounts)
  }

  lemma LandingKeepsInv(env: Env, c: Chain, tx: Tx)
    requires env.Valid() && ChainInv(env, c) && !HasLanded(c, tx)
    requires c.height <= tx.lastValidBlockHeight && LegalInstructions(env, c.accounts, tx.instructions)
    ensures ChainInv(env, Land(env, c, tx)) && Later(env, c, Land(env, c, tx))
  {
    var outcome := Execute(env, c.accounts, tx.instructions);
    var d := Land(env, c, tx);
    if outcome.Some? {
      ExecuteEvolves(env, c.accounts, tx.instructions);
    }
    forall i | 0 <= i < |c.landed| && c.landed[i].outcome.Some?
      ensures Evolves(env, c.landed[i].outcome.value.accounts, d.accounts)
    {
      EvolvesTransitive(env, c.landed[i].outcome.value.accounts, c.accounts, d.accounts);
    }
  }

  lemma StepIsLater(env: Env, c: Chain, d: Chain)
    requires env.Valid() && ChainInv(env, c) && ChainStep(env, c, d)
    ensures ChainInv(env, d) && Later(env, c, d)
  {
    if c.height <= d.height && d == c.(height := d.height) {
    } else if LegalOutside(env, c.accounts, d.accounts) && d == c.(accounts := d.accounts) {
      StepKeepsInv(env, c.accounts, Outside(d.accounts));
      forall i | 0 <= i < |c.landed| && c.landed[i].outcome.Some?
        ensures Evolves(env, c.landed[i].outcome.value.accounts, d.accounts)
      {
        EvolvesTransitive(env, c.landed[i].outcome.value.accounts, c.accounts, d.accounts);
      }
    } else {
      var tx: Tx :| !HasLanded(c, tx) && c.height <= tx.lastValidBlockHeight
                    && LegalInstructions(env, c.accounts, tx.instructions) && d == Land(env, c, tx);
      LandingKeepsInv(env, c, tx);
    }
  }

  lemma LaterTransitive(env: Env, c: Chain, d: Chain, e: Chain)
    requires Later(env, c, d) && Later(env, d, e)
    ensures Later(env, c, e)
  {}

  /** A run of the cluster from the program's deployment on: its state at every moment. */
  ghost predicate History(env: Env, timeline: nat -> Chain) {
    && Genesis(env, timeline(0).accounts) && timeline(0).landed == []
    && forall i: nat, j: nat :: j == i + 1 ==> ChainStep(env, timeline(i), timeline(j))
  }

  lemma {:induction false} HistoryInv(env: Env, timeline: nat -> Chain, i: nat)
    requires env.Valid() && History(env, timeline)
    ensures ChainInv(env, timeline(i))
  {
    if i > 0 {
      HistoryInv(env, timeline, i - 1);
      assert ChainStep(env, timeline(i - 1), timeline(i - 1 + 1));
      StepIsLater(env, timeline(i - 1), timeline(i));
    }
  }

  lemma {:induction false} HistoryLater(env: Env, timeline: nat -> Chain, i: nat, j: nat)
    requires env.Valid() && History(env, timeline) && i <= j
    ensures Later(env, timeline(i), timeline(j))
    decreases j - i
  {
    hide ChainInv, ChainStep, Evolves;
    if i == j {
      EvolvesReflexive(env, timeline(i).accounts);
    } else {
      HistoryLater(env, timeline, i, j - 1);
      HistoryInv(env, timeline, j - 1);
      assert ChainStep(env, timeline(j - 1), timeline(j - 1 + 1));
      StepIsLater(env, timeline(j - 1), timeline(j));
      LaterTransitive(env, timeline(i), timeline(j - 1), timeline(j));
    }
  }

  // ----- Settlements that landed -----

  ghost predicate RecordExists(env: Env, c: Chain, namespace: Key, eventId: Key) {
    Owned(env, c.accounts, RecordAddress(env, namespace, eventId))
  }

  /** The transaction brought the record of the event into being. */
  ghost predicate CreatesRecord(env: Env, landing: Landing, namespace: Key, eventId: Key) {
    && landing.outcome.Some?
    && !Owned(env, landing.before, RecordAddress(env, namespace, eventId))
    && Owned(env, landing.outcome.value.accounts, RecordAddress(env, namespace, eventId))
  }

  /** Every record there is was created by a transaction that landed. */
  lemma {:induction false} RecordHasCreator(env: Env, timeline: nat -> Chain, i: nat, namespace: Key, eventId: Key)
    returns (k: nat)
    requires env.Valid() && History(env, timeline) && RecordExists(env, timeline(i), namespace, eventId)
    ensures k < |timeline(i).landed| && CreatesRecord(env, timeline(i).landed[k], namespace, eventId)
  {
    var record := RecordAddress(env, namespace, eventId);
    assert IsDerived(env, record);
    if i == 0 {
      assert false;
    } else {
      var c, d := timeline(i - 1), timeline(i - 1 + 1);
      HistoryLater(env, timeline, i - 1, i);
      if Owned(env, c.accounts, record) {
        k := RecordHasCreator(env, timeline, i - 1, namespace, eventId);
      } else {
        assert ChainStep(env, c, d);
        k := |c.landed|;
      }
    }
  }

  /** At most one transaction of any history creates a given record. */
  lemma CreatedOnce(env: Env, c: Chain, i: nat, j: nat, namespace: Key, eventId: Key)
    requires ChainInv(env, c) && i < |c.landed| && j < |c.landed|
    requires CreatesRecord(env, c.landed[i], namespace, eventId) && CreatesRecord(env, c.landed[j], namespace, eventId)
    ensures i == j
  {}

  /** A successful transaction that settles the event at top level created its record. */
  lemma TopLevelCreates(env: Env, landing: Landing, i: nat, namespace: Key, eventId: Key)
    requires env.Valid() && Inv(env, landing.before)
    requires LegalInstructions(env, landing.before, landing.tx.instructions)
    requires landing.outcome == Execute(env, landing.before, landing.tx.instructions) && landing.outcome.Some?
    requires i < |landing.tx.instructions| && landing.tx.instructions[i].Call?
    requires var call := landing.tx.instructions[i];
             SettledEvent(call.data) == Some(eventId) && |call.metas| > 2 && call.metas[2].key == namespace
    ensures CreatesRecord(env, landing, namespace, eventId)
  {
    var instructions := landing.tx.instructions;
    EvolvesWithin(env, landing.before, instructions, i);
    EvolvesWithin(env, landing.before, instructions, i + 1);
    ExecutePrefix(env, landing.before, instructions, i);
    assert instructions[..i + 1][..i] == instructions[..i];
    var before := Execute(env, landing.before, instructions[..i]).value.accounts;
    SettlementStep(env, before, instructions[i].metas, instructions[i].data);
  }
}

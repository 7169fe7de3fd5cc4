/**
  A world the assumptions allow, small enough to follow: a namespace is opened,
  and one event is settled in it by what the client builds.
 */
module Examples {
  import opened Basics
  import opened Splits
  import opened Codec
  import opened Program
  import opened Accounting
  import opened Runs
  import opened Funding
  import opened Text
  import opened Evidence
  import opened Cluster
  import opened EvidenceLaws
  import opened Search
  import opened SearchLaws
  import opened Tables
  import opened Stores
  import opened Networks
  import opened Protocol
  import opened Deciding
  import opened Worker

  // ----- Who is who -----

  function Id(n: byte): (key: Key)
    ensures key[0] == n
  {
    seq(32, i => n)
  }

  const PROGRAM := Id(1)
  const TOKEN_PROGRAM := Id(2)
  const MEMO_PROGRAM := Id(3)
  const PAYER := Id(4)
  const AUTHORITY := Id(5)
  const NAMESPACE := Id(6)
  const WALLET := Id(7)
  const RECORD := Id(8)
  const WRAPPER := Id(9)
  const NAMESPACE_ID := Id(10)
  const SEED := Id(11)

  const RENT: nat := 1000
  const FUNDS: nat := 0x1000_0000_0000_0000

  /** Seeds of seventy-four bytes derive the one record, all others the one namespace. */
  function Derive(seeds: seq<byte>): Key {
    if |seeds| == 74 then RECORD else NAMESPACE
  }

  const ENV: Env := Env(PROGRAM, TOKEN_PROGRAM, Derive, (seeds: seq<byte>) => 0, (size: nat) => RENT)
  const CLIENT: Client := Client(ENV, MEMO_PROGRAM, (eventId: string) => SEED)

  lemma Addresses()
    ensures RecordAddress(ENV, NAMESPACE, SEED) == RECORD && NamespaceAddress(ENV, AUTHORITY, NAMESPACE_ID) == NAMESPACE
    ensures forall k: Key :: IsDerived(ENV, k) ==> k == RECORD || k == NAMESPACE
    ensures ENV.Valid() && ClientValid(CLIENT) && SYSTEM_PROGRAM[0] == 0
  {
    assert |RecordSeeds(NAMESPACE, SEED)| == 74 && |NamespaceSeeds(AUTHORITY, NAMESPACE_ID)| == 73;
  }

  // ----- Opening the namespace -----

  /** At deployment only the payer has anything. */
  const GENESIS: Accounts := map[PAYER := Account(SYSTEM_PROGRAM, FUNDS, [], NoToken)]

  const OPENING: TxInstruction :=
    Call([Meta(PAYER, true, true), Meta(AUTHORITY, true, false), Meta(NAMESPACE, false, true),
          Meta(SYSTEM_PROGRAM, false, false)],
         Packed(CreateNamespace(NAMESPACE_ID, AUTHORITY)))

  /** The accounts once the namespace is open. */
  function Opened(): Accounts {
    var paid := Account(SYSTEM_PROGRAM, FUNDS - RENT, [], NoToken);
    var namespace := Account(PROGRAM, RENT, NamespaceData(0, AUTHORITY, NAMESPACE_ID, AUTHORITY), NoToken);
    GENESIS[PAYER := paid][NAMESPACE := namespace]
  }

  lemma OpeningRuns()
    ensures Process(ENV, GENESIS, OPENING.metas, OPENING.data).Ok?
    ensures var effect := Process(ENV, GENESIS, OPENING.metas, OPENING.data).value;
            effect.accounts == Opened()
  {
    Addresses();
    UnpackPacked(CreateNamespace(NAMESPACE_ID, AUTHORITY));
    hide Unpack, Packed;
    var effect := NamespaceCreated(ENV, GENESIS, OPENING.metas, NAMESPACE_ID, AUTHORITY).value;
    assert effect.accounts == Opened();
  }

  lemma GenesisHolds()
    ensures Genesis(ENV, GENESIS)
  {
    Addresses();
  }

  lemma OpenedHolds()
    ensures Inv(ENV, Opened())
    ensures AuthorizeError(ENV, Opened(), Meta(AUTHORITY, true, false), NAMESPACE).None?
  {
    Addresses();
    OpeningRuns();
    GenesisHolds();
    StepKeepsInv(ENV, GENESIS, Instruct(OPENING.metas, OPENING.data));
  }

  // ----- Settling in it -----

  /** A sale whose proceeds all go to one wallet. */
  function Order(amount: nat): Request {
    Request("event", "now", "sale", amount, NATIVE_ASSET, [Share("creator", Base58(WALLET), 10000)], "")
  }

  /** An amount the payer can cover. */
  predicate IsCovered(amount: nat) {
    0 < amount <= FUNDS - 2 * RENT
  }

  lemma OrderSplits(amount: nat)
    requires IsCovered(amount)
    ensures BpsOfShares(Order(amount).shares) == [10000]
    ensures Split(amount, [10000]) == Ok([amount]) && Split(1, [10000]).Ok?
    ensures RequestValid(Order(amount))
  {
    assert BpsOfShares(Order(amount).shares) == [10000];
    assert Sum([10000]) == 10000 by { assert [10000][1..] == []; }
    var none: seq<int> := [];
    assert [10000][..0] == none && Floors(amount, none) == none && none + [amount] == [amount];
    assert Payouts(amount, [10000]) == [amount];
    assert Trim("creator") == "creator";
  }

  function Settlement(amount: nat): Built
    requires IsCovered(amount)
  {
    Built(MemoFor(Order(amount), amount),
          [Meta(PAYER, true, true), Meta(AUTHORITY, true, false), Meta(NAMESPACE, false, false)]
          + Writable([WALLET])
          + [Meta(RECORD, false, true), Meta(SYSTEM_PROGRAM, false, false)],
          Packed(SettleN(SEED, amount, [10000])))
  }

  /** It is what the client builds. */
  lemma SettlementIsBuilt(amount: nat)
    requires IsCovered(amount)
    ensures Build(CLIENT, Order(amount), PAYER, AUTHORITY, NAMESPACE, 1) == Ok(Settlement(amount))
  {
    Addresses();
    OrderSplits(amount);
    KeyOfBase58(WALLET);
    assert RecipientsOf(Order(amount).shares) == [Base58(WALLET)];
    KeysOfOne(Base58(WALLET), WALLET);
    hide KeyOf, Base58, Packed, Split, RequestValid, MemoFor;
    assert ProgramRecipient([WALLET], RECORD, NAMESPACE).None?;
  }

  lemma KeysOfOne(text: string, key: Key)
    requires KeyOf(text) == Some(key)
    ensures KeysOf([text]) == Some([key])
  {
    hide KeyOf, Base58;
    var none: seq<string> := [];
    var keys: seq<Key> := [];
    assert [text][..0] == none && KeysOf(none) == Some(keys) && keys + [key] == [key];
  }

  lemma SettlementRuns(amount: nat)
    requires IsCovered(amount)
    ensures var built := Settlement(amount);
            Process(ENV, Opened(), built.metas, built.data).Ok?
  {
    hide Unpack, Packed, Split, SettledWith, Inv, AuthorizeError, WellMade, CanPay;
    Addresses();
    OrderSplits(amount);
    OpenedHolds();
    var built := Settlement(amount);
    UnpackPacked(SettleN(SEED, amount, [10000]));
    var l := Listed();
    assert ListingOf(built.metas, 1) == l;
    assert Sum([amount]) == amount by {
      assert [amount][1..] == [];
    }
    CanSettle(amount);
    WellMadeSettles(ENV, Opened(), l, SEED, amount, [amount]);
    BuiltSettlesWith(ENV, Opened(), built, SEED, amount, [10000], [amount]);
  }

  function Listed(): Listing {
    Listing(Meta(PAYER, true, true), Meta(AUTHORITY, true, false), Meta(NAMESPACE, false, false),
            [Meta(WALLET, false, true)], Meta(RECORD, false, true), Meta(SYSTEM_PROGRAM, false, false))
  }

  lemma CanSettle(amount: nat)
    requires IsCovered(amount)
    ensures WellMade(ENV, Opened(), Listed(), SEED)
    ensures CanPay(Opened(), Listed().payer, Price(ENV, Opened(), Listed(), amount))
  {
    hide AuthorizeError;
    Addresses();
    OpenedHolds();
  }

  // ----- The cluster's history -----

  const OPEN_TX: Tx := Tx("open", [OPENING], 100)

  function SettleTx(amount: nat): Tx
    requires IsCovered(amount)
  {
    Tx("settle", Instructions(Settlement(amount)), 100)
  }

  /** Another program invokes the same settlement again, and does not mind that it fails. */
  function DecoyTx(amount: nat): Tx
    requires IsCovered(amount)
  {
    Tx("decoy", [Foreign(WRAPPER, [Cpi(Settlement(amount).metas, Settlement(amount).data, true)])], 100)
  }

  const DEPLOYED: Chain := Chain(GENESIS, 0, [])

  const WITH_NAMESPACE: Chain := Land(ENV, DEPLOYED, OPEN_TX)

  function WithSettlement(amount: nat): Chain
    requires IsCovered(amount)
  {
    Land(ENV, WITH_NAMESPACE, SettleTx(amount))
  }

  function WithDecoy(amount: nat): Chain
    requires IsCovered(amount)
  {
    Land(ENV, WithSettlement(amount), DecoyTx(amount))
  }

  /** One transaction a moment, and nothing after the last. */
  function Timeline(amount: nat, decoy: bool): nat -> Chain
    requires IsCovered(amount)
  {
    (i: nat) => if i == 0 then DEPLOYED
                else if i == 1 then WITH_NAMESPACE
                else if i == 2 || !decoy then WithSettlement(amount)
                else WithDecoy(amount)
  }

  lemma OpeningLands()
    ensures Execute(ENV, GENESIS, OPEN_TX.instructions).Some?
    ensures WITH_NAMESPACE.accounts == Opened() && WITH_NAMESPACE.landed == [Landing(OPEN_TX, GENESIS,
                                                     Execute(ENV, GENESIS, OPEN_TX.instructions))]
  {
    OpeningRuns();
    hide Process, Opened;
    assert [OPENING][..0] == [];
    assert Execute(ENV, GENESIS, []) == Some(Run(GENESIS, []));
  }

  lemma SettlementLands(amount: nat)
    requires IsCovered(amount)
    ensures Execute(ENV, Opened(), SettleTx(amount).instructions).Some?
  {
    SettlementRuns(amount);
    NoteThenCall(Opened(), Settlement(amount));
  }

  lemma NoteThenCall(a: Accounts, built: Built)
    requires Process(ENV, a, built.metas, built.data).Ok?
    ensures Execute(ENV, a, Instructions(built)).Some?
  {
    hide Process;
    var both := Instructions(built);
    assert both[..1][..0] == [] && both[..1][0] == both[0];
    assert Execute(ENV, a, []) == Some(Run(a, []));
    assert Execute(ENV, a, both[..1]).value.accounts == a;
  }

  /** A tolerated failure fails nothing, and is logged. */
  lemma DecoyLands(amount: nat, a: Accounts)
    requires IsCovered(amount)
    ensures var outcome := Execute(ENV, a, DecoyTx(amount).instructions);
            && outcome.Some? && outcome.value.logs[0] != []
            && outcome.value.logs[0][0].Invoked?
            && outcome.value.logs[0][0].metas == Settlement(amount).metas
            && outcome.value.logs[0][0].data == Settlement(amount).data
  {
    hide Process, Settlement;
    var all := DecoyTx(amount).instructions;
    var ops := all[0].ops;
    assert all[..0] == [] && ops[..0] == [];
    assert Execute(ENV, a, []) == Some(Run(a, []));
    assert OpsRun(ENV, a, []) == Some((a, []));
  }

  lemma LegalHere(amount: nat, a: Accounts)
    requires IsCovered(amount)
    ensures LegalInstructions(ENV, a, OPEN_TX.instructions) && LegalInstructions(ENV, a, SettleTx(amount).instructions)
    ensures LegalInstructions(ENV, a, DecoyTx(amount).instructions)
  {
    hide Execute, OpsRun, LegalOutside;
  }

  lemma LandSteps(c: Chain, tx: Tx)
    requires !HasLanded(c, tx) && c.height <= tx.lastValidBlockHeight && LegalInstructions(ENV, c.accounts, tx.instructions)
    ensures ChainStep(ENV, c, Land(ENV, c, tx))
  {
    hide Land, LegalInstructions, HasLanded;
  }

  lemma StandsStill(c: Chain)
    ensures ChainStep(ENV, c, c)
  {
    hide LegalInstructions, LegalOutside;
    assert c == c.(height := c.height);
  }

  /** What has landed at each stage. */
  lemma Stages(amount: nat)
    requires IsCovered(amount)
    ensures WITH_NAMESPACE.landed == [Landing(OPEN_TX, GENESIS, Execute(ENV, GENESIS, OPEN_TX.instructions))]
    ensures WITH_NAMESPACE.height == WithSettlement(amount).height == 0
    ensures var c := WITH_NAMESPACE.accounts;
            WithSettlement(amount).landed ==
            WITH_NAMESPACE.landed + [Landing(SettleTx(amount), c, Execute(ENV, c, SettleTx(amount).instructions))]
    ensures var c := WithSettlement(amount).accounts;
            WithDecoy(amount).landed ==
            WithSettlement(amount).landed + [Landing(DecoyTx(amount), c, Execute(ENV, c, DecoyTx(amount).instructions))]
  {
    hide Execute, Settlement, Opened;
  }

  lemma NextStage(amount: nat, decoy: bool, i: nat)
    requires IsCovered(amount)
    ensures ChainStep(ENV, Timeline(amount, decoy)(i), Timeline(amount, decoy)(i + 1))
  {
    hide Execute, LegalInstructions, Opened, Settlement, ChainStep, Land;
    Stages(amount);
    var c := Timeline(amount, decoy)(i);
    LegalHere(amount, c.accounts);
    if i == 0 {
      LandSteps(c, OPEN_TX);
    } else if i == 1 {
      LandSteps(c, SettleTx(amount));
    } else if i == 2 && decoy {
      LandSteps(c, DecoyTx(amount));
    } else {
      StandsStill(c);
    }
  }

  lemma HistoryHolds(amount: nat, decoy: bool)
    requires IsCovered(amount)
    ensures History(ENV, Timeline(amount, decoy))
  {
    GenesisHolds();
    hide Genesis, ChainStep, Land;
    var timeline := Timeline(amount, decoy);
    forall i: nat, j: nat | j == i + 1
      ensures ChainStep(ENV, timeline(i), timeline(j))
    {
      NextStage(amount, decoy, i);
    }
  }

  // ----- The settlement that landed -----

  const PARAMS: Params := Params(PROGRAM, NAMESPACE, 1, PAYER, AUTHORITY)

  function SettlementLanding(amount: nat): Landing
    requires IsCovered(amount)
  {
    Landing(SettleTx(amount), Opened(), Execute(ENV, Opened(), SettleTx(amount).instructions))
  }

  lemma WhatLanded(amount: nat)
    requires IsCovered(amount)
    ensures |WithSettlement(amount).landed| == 2 && |WithDecoy(amount).landed| == 3
    ensures WithSettlement(amount).landed[0].tx == WithDecoy(amount).landed[0].tx == OPEN_TX
    ensures WithSettlement(amount).landed[1] == WithDecoy(amount).landed[1] == SettlementLanding(amount)
    ensures WithDecoy(amount).landed[2].tx == DecoyTx(amount)
    ensures SettlementLanding(amount).outcome.Some?
  {
    hide Execute, Settlement, Opened, Land;
    Stages(amount);
    OpeningLands();
    SettlementLands(amount);
  }

  lemma HoldsAt(amount: nat, decoy: bool, i: nat)
    requires IsCovered(amount)
    ensures ChainInv(ENV, Timeline(amount, decoy)(i))
  {
    Addresses();
    HistoryHolds(amount, decoy);
    HistoryInv(ENV, Timeline(amount, decoy), i);
  }

  lemma SettlementCreates(amount: nat)
    requires IsCovered(amount)
    ensures IsBuilt(CLIENT, Order(amount), PARAMS, SettleTx(amount))
    ensures CreatesRecord(ENV, SettlementLanding(amount), NAMESPACE, SEED)
    ensures SettlesAtTop(SettleTx(amount).instructions, NAMESPACE, SEED)
  {
    hide Execute, Opened, Inv, LegalInstructions, NamesEvent, Build, CreatesRecord, Timeline, SettledEvent, Process;
    Addresses();
    SettlementIsBuilt(amount);
    WhatLanded(amount);
    HoldsAt(amount, false, 2);
    assert WithSettlement(amount) == Timeline(amount, false)(2) by {
      SecondMoment(amount);
    }
    BuiltSettles(CLIENT, Order(amount), PARAMS, SettleTx(amount));
    TopLevelCreates(ENV, SettlementLanding(amount), 1, NAMESPACE, SEED);
  }

  lemma SecondMoment(amount: nat)
    requires IsCovered(amount)
    ensures Timeline(amount, false)(2) == Timeline(amount, true)(2) == WithSettlement(amount)
    ensures Timeline(amount, true)(3) == WithDecoy(amount) && Timeline(amount, false)(1) == WITH_NAMESPACE
  {}

  /** It can be stated exactly up to the largest safe integer, whoever looks. */
  lemma SettlementJudged(amount: nat)
    requires IsCovered(amount)
    ensures var stored := Stored(Order(amount), PARAMS);
            && (AgreesWith(CLIENT, SettlementLanding(amount), stored) <==> amount <= MAX_SAFE_INTEGER)
            && (MismatchesWith(CLIENT, SettlementLanding(amount), stored) <==> amount > MAX_SAFE_INTEGER)
  {
    hide Execute, Opened, Settlement, Build, Judge, TruthOf, Contradicts, Split;
    Addresses();
    var stored, landing := Stored(Order(amount), PARAMS), SettlementLanding(amount);
    WhatLanded(amount);
    SettlementCreates(amount);
    OrderSplits(amount);
    RequestDecidesFit(CLIENT, Opened(), Order(amount), NAMESPACE, 1);
    assert AllFit([amount]) <==> [amount][0] <= MAX_SAFE_INTEGER;
    OwnSettlementContradicts(CLIENT, landing, Order(amount), PARAMS);
    ContradictedInTruth(CLIENT, landing, stored);
    if amount <= MAX_SAFE_INTEGER {
      OwnAgreesWith(CLIENT, landing, stored);
    }
  }

  // ----- Told in full -----

  function Small(amount: nat, decoy: bool): Nature
    requires IsCovered(amount)
  {
    Forthcoming(CLIENT, Timeline(amount, decoy))
  }

  /** Nothing else ever lands. */
  lemma OnlyThese(amount: nat, decoy: bool, i: nat, j: nat)
    requires IsCovered(amount) && j < |Timeline(amount, decoy)(i).landed|
    ensures Timeline(amount, decoy)(i).landed[j].tx in {OPEN_TX, SettleTx(amount), DecoyTx(amount)}
  {
    hide Execute, Settlement, Opened, Land;
    WhatLanded(amount);
    Stages(amount);
  }

  /** The world is as assumed, faultless from the first call on, and its histories are complete. */
  lemma SmallIsLawful(amount: nat, decoy: bool)
    requires IsCovered(amount)
    ensures Small(amount, decoy).Lawful() && Small(amount, decoy).Prompt(0)
    ensures forall i: nat, record: Key ::
              && Reliable(Small(amount, decoy).endpoint(i, record), Small(amount, decoy).archive(i))
              && CompleteHistory(Timeline(amount, decoy)(i), record, Small(amount, decoy).endpoint(i, record).history)
  {
    Addresses();
    HistoryHolds(amount, decoy);
    hide Settlement, Timeline, History, Nature.Lawful, Nature.Prompt, Reliable, CompleteHistory, ClientValid;
    forall i: nat, j | 0 <= j < |Timeline(amount, decoy)(i).landed|
      ensures WellTyped(CLIENT, Timeline(amount, decoy)(i).landed[j].tx.instructions)
      ensures NUL !in Timeline(amount, decoy)(i).landed[j].tx.signature
    {
      OnlyThese(amount, decoy, i, j);
    }
    ForthcomingIsLawful(CLIENT, Timeline(amount, decoy));
  }

  const QUERY: Query := Query(PROGRAM, NAMESPACE, SEED)

  lemma RanIsNoSettlement(log: seq<Logged>)
    requires forall i :: 0 <= i < |log| ==> log[i].Ran?
    ensures !Matches(RenderLog(ENV, log), QUERY)
  {}

  lemma {:induction false} GroupFromLog(logs: seq<seq<Logged>>, g: nat) returns (i: nat)
    requires g < |RenderGroups(ENV, logs)|
    ensures i < |logs| && RenderGroups(ENV, logs)[g].instructions == RenderLog(ENV, logs[i])
  {
    var n := |logs| - 1;
    if g < |RenderGroups(ENV, logs[..n])| {
      i := GroupFromLog(logs[..n], g);
    } else {
      i := n;
    }
  }

  lemma OpeningOnlyRan()
    ensures var outcome := Execute(ENV, GENESIS, OPEN_TX.instructions);
            && outcome.Some? && |outcome.value.logs| == 1
            && forall i :: 0 <= i < |outcome.value.logs[0]| ==> outcome.value.logs[0][i].Ran?
  {
    OpeningLands();
    ExecutePrefix(ENV, GENESIS, OPEN_TX.instructions, 0);
    hide Execute, Process, Opened, Land;
  }

  /** The opening shows no settlement of the event. */
  lemma OpeningIsNoCandidate(answer: RpcTransaction)
    requires Honest(CLIENT, answer, Landing(OPEN_TX, GENESIS, Execute(ENV, GENESIS, OPEN_TX.instructions)))
    ensures FoundIn(OPEN_TX.signature, answer, QUERY) == []
  {
    OpeningOnlyRan();
    hide Execute, RenderGroups, RenderLog, Matches;
    var logs: seq<seq<Logged>> := Execute(ENV, GENESIS, OPEN_TX.instructions).value.logs;
    RanIsNoSettlement(logs[0]);
    forall g | 0 <= g < |answer.inner|
      ensures !Matches(answer.inner[g].instructions, QUERY)
    {
      var i := GroupFromLog(logs, g);
    }
    OpeningTopLevel();
  }

  lemma OpeningTopLevel()
    ensures !Matches(RenderAll(CLIENT, OPEN_TX.instructions), QUERY)
  {
    assert OPENING.data[0] == CREATE_NAMESPACE_TAG;
    assert RenderAll(CLIENT, [OPENING])[0] == RenderTop(CLIENT, OPENING);
  }

  /** The decoy does, in what it invoked. */
  lemma DecoyIsCandidate(amount: nat, a: Accounts, answer: RpcTransaction)
    requires IsCovered(amount)
    requires Honest(CLIENT, answer, Landing(DecoyTx(amount), a, Execute(ENV, a, DecoyTx(amount).instructions)))
    ensures FoundIn(DecoyTx(amount).signature, answer, QUERY) != []
  {
    hide Execute, RenderGroups, Unpack, Packed, SettlesEvent;
    DecoyLands(amount, a);
    var logs: seq<seq<Logged>> := Execute(ENV, a, DecoyTx(amount).instructions).value.logs;
    var g := GroupInRender(ENV, logs, 0);
    OrderSplits(amount);
    UnpackPacked(SettleN(SEED, amount, [10000]));
    SettlementRecognised(ENV, logs[0][0].metas, logs[0][0].data, QUERY);
    assert RenderLog(ENV, logs[0])[0] == RenderLogged(ENV, logs[0][0]);
    assert Matches(answer.inner[g].instructions, QUERY);
  }

  lemma HistoryListed(amount: nat, decoy: bool, n: nat)
    requires IsCovered(amount)
    ensures var history, landed := Small(amount, decoy).endpoint(n, RECORD).history, Timeline(amount, decoy)(n).landed;
            && |history| == |landed|
            && forall i :: 0 <= i < |landed| ==> IsEntryOf(history[i], landed[|landed| - 1 - i])
  {
    ListedInTurn(CLIENT, Timeline(amount, decoy)(n).landed);
  }

  /** Of what landed by the second moment, only the settlement names the event. */
  lemma NoDecoyYet(amount: nat, decoy: bool)
    requires IsCovered(amount)
    ensures var history, archive := Small(amount, decoy).endpoint(2, RECORD).history, Small(amount, decoy).archive(2);
            && |history| == 2
            && forall i :: 0 <= i < 2 ==> !IsDecoy(history[i], archive, QUERY, SettleTx(amount).signature)
  {
    hide Execute, Settlement, Opened, Land, Timeline, Honest, FoundIn, Small, WithSettlement;
    TwoEntries(amount, decoy);
    var history, archive := Small(amount, decoy).endpoint(2, RECORD).history, Small(amount, decoy).archive(2);
    if OPEN_TX.signature in archive {
      OpeningIsNoCandidate(archive[OPEN_TX.signature]);
    }
  }

  lemma TwoEntries(amount: nat, decoy: bool)
    requires IsCovered(amount)
    ensures var history, archive := Small(amount, decoy).endpoint(2, RECORD).history, Small(amount, decoy).archive(2);
            && |history| == 2
            && history[0].signature == SettleTx(amount).signature && history[1].signature == OPEN_TX.signature
            && (OPEN_TX.signature in archive ==>
                  Honest(CLIENT, archive[OPEN_TX.signature],
                         Landing(OPEN_TX, GENESIS, Execute(ENV, GENESIS, OPEN_TX.instructions))))
  {
    hide Execute, Settlement, Opened, Land, Honest, WithSettlement;
    HistoryListed(amount, decoy, 2);
    WhatLanded(amount);
    Stages(amount);
    SecondMoment(amount);
    HonestlyTold(amount, decoy);
    hide Small, Timeline;
  }

  lemma HonestlyTold(amount: nat, decoy: bool)
    requires IsCovered(amount)
    ensures HonestArchive(CLIENT, WithSettlement(amount), Small(amount, decoy).archive(2))
  {
    SmallIsLawful(amount, decoy);
    SecondMoment(amount);
    hide Settlement, HonestArchive, WithSettlement;
    assert HonestArchive(CLIENT, Small(amount, decoy).timeline(2), Small(amount, decoy).archive(2));
  }

  lemma OneSeed(amount: nat)
    requires IsCovered(amount)
    ensures NoCollision(ENV, SettleTx(amount).instructions, RecordSeeds(NAMESPACE, SEED))
  {
    hide Unpack, Packed, RecordSeeds;
    UnpackPacked(SettleN(SEED, amount, [10000]));
  }

  // ----- What a worker makes of it -----

  ghost predicate IsHere(worker: SettlementWorker, amount: nat, decoy: bool)
    requires IsCovered(amount)
  {
    && worker.network.nature == Small(amount, decoy)
    && worker.payer == PAYER && worker.authority == AUTHORITY && worker.namespace == NAMESPACE && worker.scale == 1
  }

  /** Such a worker exists, and nothing ever fails it. */
  method OpenHere(amount: nat, decoy: bool, sign: (seq<TxInstruction>, Blockhash) -> Option<string>)
    returns (worker: SettlementWorker)
    requires IsCovered(amount)
    ensures fresh(worker) && fresh(worker.store) && fresh(worker.network)
    ensures worker.Valid() && worker.Healthy() && IsHere(worker, amount, decoy)
  {
    hide Nature.Lawful, Timeline, SettlementWorker.Valid;
    SmallIsLawful(amount, decoy);
    worker := Open(Small(amount, decoy), (i: nat) => Fate.Goes, PAYER, AUTHORITY, NAMESPACE, 1, false, 3, sign);
  }

  /** Once landed, the settlement can be traced. */
  lemma CanBeTraced(worker: SettlementWorker, amount: nat)
    requires IsCovered(amount) && IsHere(worker, amount, false)
    ensures worker.network.nature.timeline(2) == WithSettlement(amount) && worker.network.nature.client == CLIENT
    ensures worker.network.nature.timeline(1) == WITH_NAMESPACE
    ensures worker.Traceable(2, "event", 1) && worker.IsTopLevel(2, "event", 1)
  {
    Addresses();
    SmallIsLawful(amount, false);
    WhatLanded(amount);
    SecondMoment(amount);
    SettlementCreates(amount);
    OneSeed(amount);
    NoDecoyYet(amount, false);
    hide Execute, Settlement, Opened, Land, Timeline, Reliable, CompleteHistory, NoCollision, CreatesRecord, IsDecoy,
      Nature.Lawful, RecordAddress, SettlesAtTop, WithSettlement, RecordSeeds;
  }

  /** The event in flight, its one attempt sent. */
  function InFlight(amount: nat, ids: map<string, string>): Db
    requires IsCovered(amount)
  {
    Db(["event"], map["event" := StoredEvent("event", Order(amount), ids, IN_FLIGHT, 1)],
       map[("event", 1) := StoredAttempt("event", 1, Order(amount), PARAMS, Some("settle"), Some(SettleTx(amount)), Some(100),
                                         SIGNED)],
       [], [], [])
  }

  lemma NothingAwaited(worker: SettlementWorker, amount: nat, ids: map<string, string>)
    requires IsCovered(amount) && IsHere(worker, amount, false)
    ensures !worker.AnyElsewhere(InFlight(amount, ids), "event") && !worker.AnyMayLand(2, InFlight(amount, ids), "event")
    ensures worker.AnyMayLand(1, InFlight(amount, ids), "event")
  {
    hide Execute, Settlement, Opened, Land, Small, LandingOf, WithSettlement;
    CanBeTraced(worker, amount);
    LandsSecond(amount);
    OneAttempt(amount, ids);
    hide InFlight;
    var db := InFlight(amount, ids);
    var attempt := db.attempts[("event", 1)];
    assert MayLand(WITH_NAMESPACE, attempt) && !MayLand(WithSettlement(amount), attempt);
  }

  lemma OneAttempt(amount: nat, ids: map<string, string>)
    requires IsCovered(amount)
    ensures var attempts := InFlight(amount, ids).attempts;
            && (forall k: nat :: ("event", k) in attempts <==> k == 1)
            && attempts[("event", 1)] == StoredAttempt("event", 1, Order(amount), PARAMS, Some("settle"),
                                                       Some(SettleTx(amount)), Some(100), SIGNED)
  {}

  lemma LandsSecond(amount: nat)
    requires IsCovered(amount)
    ensures LandingOf(WITH_NAMESPACE.landed, "settle").None? && LandingOf(WithSettlement(amount).landed, "settle").Some?
    ensures WITH_NAMESPACE.height == 0
  {
    WhatLanded(amount);
    Stages(amount);
    hide Execute, Settlement, Opened, Land, WithSettlement;
    assert WithSettlement(amount).landed[1].tx.signature == "settle";
  }

  /**
    The worker waits until the settlement lands. Then the amount decides, and
    the beneficiary ids: it is paid if the evidence can state the amount and no
    id is blank, unresolved if one is, and an incident if the amount is too large.
   */
  lemma Outcome(worker: SettlementWorker, amount: nat, ids: map<string, string>, r: Try<Report>)
    requires IsCovered(amount) && IsHere(worker, amount, false)
    ensures worker.ChainDecides(1, InFlight(amount, ids), "event", r) ==> r == Done(WAITING)
    ensures worker.ChainDecides(2, InFlight(amount, ids), "event", r) ==>
              r == Done(if amount > MAX_SAFE_INTEGER then Decided(INCIDENT)
                        else if NamesBeneficiaries(ids) then Decided(PAID) else UNRESOLVED)
  {
    hide Execute, Settlement, Opened, Land, Small, Timeline, SettlementWorker.Traceable, SettlementWorker.IsTopLevel,
      SettlementWorker.AnyElsewhere, SettlementWorker.AnyMayLand, NamesBeneficiaries, Chosen, WithSettlement,
      SettlementWorker.RecordAsOf;
    CanBeTraced(worker, amount);
    NothingAwaited(worker, amount, ids);
    WhatLanded(amount);
    if worker.ChainDecides(2, InFlight(amount, ids), "event", r) {
      ChosenHere(worker, amount, ids, r);
    }
  }

  lemma ChosenHere(worker: SettlementWorker, amount: nat, ids: map<string, string>, r: Try<Report>)
    requires IsCovered(amount) && IsHere(worker, amount, false)
    requires Chosen(CLIENT, worker.Current(), InFlight(amount, ids), "event", SettlementLanding(amount), r)
    ensures r == Done(if amount > MAX_SAFE_INTEGER then Decided(INCIDENT)
                      else if NamesBeneficiaries(ids) then Decided(PAID) else UNRESOLVED)
  {
    hide SettlementLanding, NamesBeneficiaries, AgreesWith, MismatchesWith, IsRequest;
    SettlementJudged(amount);
    OneRequest(worker, amount, ids);
    var stored := Stored(Order(amount), PARAMS);
    assert IsRequest(InFlight(amount, ids), worker.Current(), "event", stored);
  }

  lemma OneRequest(worker: SettlementWorker, amount: nat, ids: map<string, string>)
    requires IsCovered(amount) && IsHere(worker, amount, false)
    ensures forall stored :: IsRequest(InFlight(amount, ids), worker.Current(), "event", stored) <==>
                             stored == Stored(Order(amount), PARAMS)
  {
    hide Order, SettleTx;
    OneAttempt(amount, ids);
  }

  /** One lamport more than can be stated exactly: the worker takes its own settlement for an incident. */
  lemma TooLargeToState(worker: SettlementWorker, r: Try<Report>)
    requires IsHere(worker, MAX_SAFE_INTEGER + 1, false)
    requires worker.ChainDecides(2, InFlight(MAX_SAFE_INTEGER + 1, map[]), "event", r)
    ensures r == Done(Decided(INCIDENT))
  {
    Outcome(worker, MAX_SAFE_INTEGER + 1, map[], r);
  }

  /** A beneficiary id of one blank: an agreeing settlement stays unresolved. */
  lemma BlankIdStaysUnresolved(worker: SettlementWorker, r: Try<Report>)
    requires IsHere(worker, 1, false)
    requires worker.ChainDecides(2, InFlight(1, map["creator" := " "]), "event", r)
    ensures r == Done(UNRESOLVED)
  {
    var ids := map["creator" := " "];
    assert Trim(ids["creator"]) == "" by {
      assert " "[1..] == "";
    }
    Outcome(worker, 1, ids, r);
  }

  /** Told in full, the settlement is found exactly as long as no decoy stands beside it. */
  lemma FoundOrHidden(amount: nat, n: nat)
    requires IsCovered(amount) && 2 <= n <= 3
    ensures var history, archive := Small(amount, true).endpoint(n, RECORD).history, Small(amount, true).archive(n);
            Verdict(history, archive, QUERY, MAX_SIGNATURES).Some? <==>
            forall i :: 0 <= i < |history| ==> !IsDecoy(history[i], archive, QUERY, SettleTx(amount).signature)
  {
    hide Execute, Settlement, Opened, CompleteHistory, NoCollision, CreatesRecord, IsDecoy, Verdict, SettlesAtTop,
      RecordSeeds, ChainInv, HonestArchive, WithSettlement, WithDecoy, ClientValid, Small, Timeline, SettlementLanding,
      RecordAddress;
    Addresses();
    LawfulHere(amount, n);
    SettlementCreates(amount);
    OneSeed(amount);
    HoldsAt(amount, true, n);
    SecondPlace(amount, n);
    var history, archive := Small(amount, true).endpoint(n, RECORD).history, Small(amount, true).archive(n);
    FoundUnlessDecoy(CLIENT, Timeline(amount, true)(n), 1, history, archive, QUERY, MAX_SIGNATURES);
  }

  lemma SecondPlace(amount: nat, n: nat)
    requires IsCovered(amount) && 2 <= n <= 3
    ensures 1 < |Timeline(amount, true)(n).landed| <= 3
    ensures Timeline(amount, true)(n).landed[1] == SettlementLanding(amount) && SettlementLanding(amount).tx == SettleTx(amount)
    ensures |Small(amount, true).endpoint(n, RECORD).history| == |Timeline(amount, true)(n).landed|
    ensures WellTyped(CLIENT, SettleTx(amount).instructions)
  {
    hide Execute, Opened, Land, WithSettlement, WithDecoy;
    WhatLanded(amount);
    SecondMoment(amount);
    HistoryListed(amount, true, n);
  }

  lemma LawfulHere(amount: nat, n: nat)
    requires IsCovered(amount)
    ensures var e, archive := Small(amount, true).endpoint(n, RECORD), Small(amount, true).archive(n);
            && HonestArchive(CLIENT, Timeline(amount, true)(n), archive) && AllKnown(e.history, archive)
            && CompleteHistory(Timeline(amount, true)(n), RECORD, e.history)
            && forall i, j :: 0 <= i < j < |e.history| ==> e.history[i].signature != e.history[j].signature
  {
    SmallIsLawful(amount, true);
    hide Settlement, Timeline, HonestArchive, CompleteHistory, History, WellTyped;
    var e, archive := Small(amount, true).endpoint(n, RECORD), Small(amount, true).archive(n);
    assert Truthful(e, archive) && Reliable(e, archive);
    forall i | 0 <= i < |e.history| && !e.history[i].failed
      ensures e.history[i].signature in archive
    {
      assert AnswersAlone(e, archive, e.history[i].signature);
    }
  }

  /** The decoy lands, and the settlement is found no more, though it is what created the record. */
  lemma DecoyHidesSettlement(amount: nat)
    requires IsCovered(amount)
    ensures var nature := Small(amount, true);
            && (exists landing <- nature.timeline(3).landed :: CreatesRecord(ENV, landing, NAMESPACE, SEED))
            && Verdict(nature.endpoint(2, RECORD).history, nature.archive(2), QUERY, MAX_SIGNATURES).Some?
            && Verdict(nature.endpoint(3, RECORD).history, nature.archive(3), QUERY, MAX_SIGNATURES).None?
  {
    WhatLanded(amount);
    SecondMoment(amount);
    SettlementCreates(amount);
    hide Execute, Settlement, Opened, Land, Small, Timeline, IsDecoy, Verdict, CreatesRecord, WithDecoy, WithSettlement;
    assert SettlementLanding(amount) in Small(amount, true).timeline(3).landed by {
      SameTimeline(amount);
    }
    NoDecoyYet(amount, true);
    FoundOrHidden(amount, 2);
    FoundOrHidden(amount, 3);
    DecoyStands(amount);
  }

  lemma SameTimeline(amount: nat)
    requires IsCovered(amount)
    ensures Small(amount, true).timeline(3) == WithDecoy(amount)
  {
    SecondMoment(amount);
  }

  lemma DecoyStands(amount: nat)
    requires IsCovered(amount)
    ensures var history, archive := Small(amount, true).endpoint(3, RECORD).history, Small(amount, true).archive(3);
            |history| == 3 && IsDecoy(history[0], archive, QUERY, SettleTx(amount).signature)
  {
    hide Execute, Settlement, Opened, Land, Honest, FoundIn, WithSettlement, WithDecoy;
    WhatLanded(amount);
    Stages(amount);
    SecondMoment(amount);
    LawfulHere(amount, 3);
    HistoryListed(amount, true, 3);
    var c, archive := WithDecoy(amount), Small(amount, true).archive(3);
    hide Small, Timeline;
    DecoyLands(amount, c.landed[2].before);
    assert c.landed[2].tx.signature in archive;
    DecoyIsCandidate(amount, c.landed[2].before, archive[DecoyTx(amount).signature]);
  }
}

/** What holds in every state the chain can reach, whatever else happens on it. */
module Runs {
  import opened Basics
  import opened LittleEndian
  import opened Splits
  import opened Codec
  import opened Program
  import opened Accounting

  // ----- What the program's accounts look like -----

  ghost predicate Owned(env: Env, a: Accounts, k: Key) {
    At(a, k).owner == env.programId
  }

  ghost predicate IsDerived(env: Env, k: Key) {
    exists seeds: seq<byte> :: env.find(seeds) == k
  }

  function CreatorOf(data: seq<byte>): Key
    requires |data| == NAMESPACE_SIZE
  {
    data[2..34]
  }

  function IdOf(data: seq<byte>): Key
    requires |data| == NAMESPACE_SIZE
  {
    data[34..66]
  }

  function AuthorityOf(data: seq<byte>): Key
    requires |data| == NAMESPACE_SIZE
  {
    data[AUTHORITY_OFFSET..]
  }

  /** A namespace, at the address its own contents derive, with a usable authority. */
  ghost predicate IsNamespace(env: Env, a: Accounts, k: Key) {
    var data := At(a, k).data;
    && Owned(env, a, k)
    && |data| == NAMESPACE_SIZE
    && data[0] == 2
    && data[1] == env.bump(NamespaceSeeds(CreatorOf(data), IdOf(data)))
    && k == NamespaceAddress(env, CreatorOf(data), IdOf(data))
    && AuthorityOf(data) != SYSTEM_PROGRAM
  }

  /** A record of the namespace, at the address that namespace and its stored event derive. */
  ghost predicate IsRecordOf(env: Env, a: Accounts, k: Key, namespace: Key) {
    var data := At(a, k).data;
    && Owned(env, a, k)
    && |data| == RECORD_SIZE
    && data[0] == 1
    && IsNamespace(env, a, namespace)
    && k == RecordAddress(env, namespace, data[1..33])
  }

  /** An account someone assigned to the program without going through it: zeros, off every derived address. */
  ghost predicate IsInert(env: Env, a: Accounts, k: Key) {
    && Owned(env, a, k)
    && !IsDerived(env, k)
    && forall i :: 0 <= i < |At(a, k).data| ==> At(a, k).data[i] == 0
  }

  ghost predicate WellFormed(env: Env, a: Accounts, k: Key) {
    IsNamespace(env, a, k) || (exists namespace: Key :: IsRecordOf(env, a, k, namespace)) || IsInert(env, a, k)
  }

  ghost predicate Untouched(a: Accounts, k: Key) {
    At(a, k).owner == SYSTEM_PROGRAM && At(a, k).data == []
  }

  ghost predicate Inv(env: Env, a: Accounts) {
    && (forall k: Key :: Owned(env, a, k) ==> WellFormed(env, a, k))
    && (forall k: Key :: IsDerived(env, k) ==> Owned(env, a, k) || Untouched(a, k))
  }

  // ----- How they may change -----

  ghost predicate Rotated(before: seq<byte>, after: seq<byte>) {
    && |before| == |after| == NAMESPACE_SIZE
    && before[0] == 2
    && after[..AUTHORITY_OFFSET] == before[..AUTHORITY_OFFSET]
    && AuthorityOf(after) != SYSTEM_PROGRAM
  }

  /** Nothing owned is debited, disowned or rewritten, but for a namespace's authority. */
  ghost predicate Evolves(env: Env, a: Accounts, b: Accounts) {
    forall k: Key :: Owned(env, a, k) ==>
      && Owned(env, b, k)
      && Lamports(a, k) <= Lamports(b, k)
      && (At(b, k).data == At(a, k).data || Rotated(At(a, k).data, At(b, k).data))
  }

  lemma EvolvesTransitive(env: Env, a: Accounts, b: Accounts, c: Accounts)
    requires Evolves(env, a, b) && Evolves(env, b, c)
    ensures Evolves(env, a, c)
  {}

  lemma NamespaceStays(env: Env, a: Accounts, b: Accounts, k: Key)
    requires Evolves(env, a, b) && IsNamespace(env, a, k)
    ensures IsNamespace(env, b, k)
    ensures At(b, k).data[..AUTHORITY_OFFSET] == At(a, k).data[..AUTHORITY_OFFSET]
  {
    var before, after := At(a, k).data, At(b, k).data;
    assert after[..AUTHORITY_OFFSET] == before[..AUTHORITY_OFFSET];
    assert after[0] == before[..AUTHORITY_OFFSET][0] && after[1] == before[..AUTHORITY_OFFSET][1];
    assert CreatorOf(after) == before[..AUTHORITY_OFFSET][2..34] == CreatorOf(before);
    assert IdOf(after) == before[..AUTHORITY_OFFSET][34..66] == IdOf(before);
  }

  lemma RecordStays(env: Env, a: Accounts, b: Accounts, k: Key, namespace: Key)
    requires Evolves(env, a, b) && IsRecordOf(env, a, k, namespace)
    ensures IsRecordOf(env, b, k, namespace) && At(b, k).data == At(a, k).data
  {
    NamespaceStays(env, a, b, namespace);
  }

  /** A change that evolves, and creates only well-formed accounts, keeps the invariant. */
  lemma InvStays(env: Env, a: Accounts, b: Accounts)
    requires Inv(env, a) && Evolves(env, a, b)
    requires forall k: Key :: Owned(env, b, k) && !Owned(env, a, k) ==> WellFormed(env, b, k)
    requires forall k: Key :: IsDerived(env, k) && !Owned(env, a, k) ==> Owned(env, b, k) || Untouched(b, k)
    ensures Inv(env, b)
  {
    forall k: Key | Owned(env, b, k) && Owned(env, a, k)
      ensures WellFormed(env, b, k)
    {
      if IsNamespace(env, a, k) {
        NamespaceStays(env, a, b, k);
      } else if namespace: Key :| IsRecordOf(env, a, k, namespace) {
        RecordStays(env, a, b, k, namespace);
      }
    }
  }

  // ----- The steps -----

  /**
    One account is created at a derived address; every other keeps its owner
    and data, and nothing owned loses a lamport.
   */
  ghost predicate Creates(env: Env, a: Accounts, b: Accounts, created: Key) {
    && Untouched(a, created)
    && Owned(env, b, created)
    && (forall k: Key :: k != created ==> At(b, k).owner == At(a, k).owner && At(b, k).data == At(a, k).data)
    && (forall k: Key :: Owned(env, a, k) ==> Lamports(a, k) <= Lamports(b, k))
  }

  lemma CreationKeepsInv(env: Env, a: Accounts, b: Accounts, created: Key)
    requires env.Valid() && Inv(env, a) && Creates(env, a, b, created) && WellFormed(env, b, created)
    ensures Inv(env, b) && Evolves(env, a, b)
  {
    assert Evolves(env, a, b);
    InvStays(env, a, b);
  }

  lemma NamespaceCreation(env: Env, a: Accounts, metas: seq<Meta>, namespaceId: Key, authority: Key)
    requires env.Valid()
    requires NamespaceCreated(env, a, metas, namespaceId, authority).Ok?
    ensures var b := NamespaceCreated(env, a, metas, namespaceId, authority).value.accounts;
            && metas[1].isSigner
            && metas[2].key == NamespaceAddress(env, metas[1].key, namespaceId)
            && Creates(env, a, b, metas[2].key)
            && At(b, metas[2].key).data
               == NamespaceData(env.bump(NamespaceSeeds(metas[1].key, namespaceId)), metas[1].key, namespaceId, authority)
            && IsNamespace(env, b, metas[2].key)
            && CreatorOf(At(b, metas[2].key).data) == metas[1].key && IdOf(At(b, metas[2].key).data) == namespaceId
            && AuthorityOf(At(b, metas[2].key).data) == authority
  {
    CreationEffect(env, a, metas[0], metas[2], metas[3], NAMESPACE_SIZE);
    var middle := AccountCreated(env, a, metas[0], metas[2], metas[3], NAMESPACE_SIZE).value.accounts;
    var creator := metas[1].key;
    var data := NamespaceData(env.bump(NamespaceSeeds(creator, namespaceId)), creator, namespaceId, authority);
    var b := WithData(middle, metas[2].key, data);
    assert forall k: Key :: At(b, k) == if k == metas[2].key then At(middle, k).(data := data) else At(middle, k);
    assert CreatorOf(data) == creator && IdOf(data) == namespaceId && AuthorityOf(data) == authority;
  }

  lemma AuthorizedNamespace(env: Env, a: Accounts, authority: Meta, namespace: Key)
    requires Inv(env, a) && AuthorizeError(env, a, authority, namespace).None?
    ensures IsNamespace(env, a, namespace)
    ensures authority.isSigner && AuthorityOf(At(a, namespace).data) == authority.key
  {
    assert Owned(env, a, namespace) && WellFormed(env, a, namespace);
  }

  /** A record created for a live namespace. */
  lemma RecordCreation(env: Env, a: Accounts, b: Accounts, record: Key, namespace: Key, eventId: Key, amount: u64)
    requires env.Valid() && Inv(env, a) && IsNamespace(env, a, namespace)
    requires Creates(env, a, b, record)
    requires record == RecordAddress(env, namespace, eventId) && At(b, record).data == RecordData(eventId, amount)
    ensures Inv(env, b) && Evolves(env, a, b) && IsRecordOf(env, b, record, namespace)
  {
    assert Evolves(env, a, b);
    NamespaceStays(env, a, b, namespace);
    assert RecordData(eventId, amount)[1..33] == eventId;
    assert IsRecordOf(env, b, record, namespace);
    CreationKeepsInv(env, a, b, record);
  }

  /** The event an instruction settles, when it is a settlement. */
  function SettledEvent(data: seq<byte>): Option<Key> {
    match Unpack(data)
    case Some(SettleN(eventId, _, _)) => Some(eventId)
    case Some(SettleTokenN(eventId, _, _, _)) => Some(eventId)
    case _ => None
  }

  /** A settlement, in lamports or tokens, of the event in the namespace, that went through. */
  ghost predicate Settles(env: Env, a: Accounts, metas: seq<Meta>, data: seq<byte>, namespace: Key, eventId: Key) {
    && Process(env, a, metas, data).Ok?
    && SettledEvent(data) == Some(eventId)
    && |metas| > 2
    && metas[2].key == namespace
  }

  /** What a settlement does to the program's own accounts. */
  ghost predicate SettlementFrame(env: Env, a: Accounts, b: Accounts, metas: seq<Meta>, eventId: Key) {
    && |metas| > 2
    && Inv(env, b) && Evolves(env, a, b)
    && IsNamespace(env, a, metas[2].key)
    && metas[1].isSigner && AuthorityOf(At(a, metas[2].key).data) == metas[1].key
    && var record := RecordAddress(env, metas[2].key, eventId);
       Creates(env, a, b, record) && IsRecordOf(env, b, record, metas[2].key)
  }

  lemma NativeStep(env: Env, a: Accounts, metas: seq<Meta>, eventId: Key, amount: u64, payouts: seq<nat>)
    requires env.Valid() && Inv(env, a) && Sum(payouts) == amount > 0
    requires Settled(env, a, metas, eventId, amount, payouts).Ok?
    ensures SettlementFrame(env, a, Settled(env, a, metas, eventId, amount, payouts).value.accounts, metas, eventId)
  {
    hide Settled, RecordCreated, Paid, AuthorizeError, Inv;
    SettledStages(env, a, metas, eventId, amount, payouts);
    SettlementEffect(env, a, metas, eventId, amount, payouts);
    AuthorizedNamespace(env, a, metas[1], metas[2].key);
    var b := Settled(env, a, metas, eventId, amount, payouts).value.accounts;
    var record := metas[3 + |payouts|].key;
    assert Creates(env, a, b, record);
    RecordCreation(env, a, b, record, metas[2].key, eventId, amount);
  }

  lemma TokenStep(env: Env, a: Accounts, metas: seq<Meta>, eventId: Key, amount: u64, decimals: byte, payouts: seq<nat>)
    requires env.Valid() && Inv(env, a) && Sum(payouts) == amount
    requires TokensSettled(env, a, metas, eventId, amount, decimals, payouts).Ok?
    ensures SettlementFrame(env, a, TokensSettled(env, a, metas, eventId, amount, decimals, payouts).value.accounts,
                            metas, eventId)
  {
    hide TokensSettled, RecordCreated, TokensPaid, AuthorizeError, Inv;
    TokensSettledStages(env, a, metas, eventId, amount, decimals, payouts);
    TokenSettlementEffect(env, a, metas, eventId, amount, decimals, payouts);
    AuthorizedNamespace(env, a, metas[1], metas[2].key);
    var b := TokensSettled(env, a, metas, eventId, amount, decimals, payouts).value.accounts;
    var record := metas[5 + |payouts|].key;
    assert Creates(env, a, b, record);
    RecordCreation(env, a, b, record, metas[2].key, eventId, amount);
  }

  lemma SettlementStep(env: Env, a: Accounts, metas: seq<Meta>, data: seq<byte>)
    requires env.Valid() && Inv(env, a)
    requires Process(env, a, metas, data).Ok? && SettledEvent(data).Some?
    ensures SettlementFrame(env, a, Process(env, a, metas, data).value.accounts, metas, SettledEvent(data).value)
  {
    hide Settled, TokensSettled, SettlementFrame;
    match Unpack(data).value
    case SettleN(eventId, amount, bps) =>
      SplitIsFair(amount, bps);
      NativeStep(env, a, metas, eventId, amount, SharesOf(amount, bps).value);
    case SettleTokenN(eventId, amount, decimals, bps) =>
      SplitIsFair(amount, bps);
      TokenStep(env, a, metas, eventId, amount, decimals, SharesOf(amount, bps).value);
  }

  lemma RotationStep(env: Env, a: Accounts, metas: seq<Meta>, newAuthority: Key)
    requires env.Valid() && Inv(env, a) && AuthoritySet(env, a, metas, newAuthority).Ok?
    ensures var b := AuthoritySet(env, a, metas, newAuthority).value.accounts;
            && Inv(env, b) && Evolves(env, a, b)
            && IsNamespace(env, a, metas[1].key)
            && metas[0].isSigner && AuthorityOf(At(a, metas[1].key).data) == metas[0].key
            && metas[2].isSigner && AuthorityOf(At(b, metas[1].key).data) == metas[2].key == newAuthority
            && forall k: Key :: k != metas[1].key ==> At(b, k) == At(a, k)
  {
    var namespace := metas[1].key;
    AuthorizedNamespace(env, a, metas[0], namespace);
    var before := At(a, namespace).data;
    var after := before[..AUTHORITY_OFFSET] + newAuthority;
    var b := AuthoritySet(env, a, metas, newAuthority).value.accounts;
    assert b == WithData(a, namespace, after);
    assert forall k: Key :: At(b, k) == if k == namespace then At(a, k).(data := after) else At(a, k);
    assert AuthorityOf(after) == newAuthority && after[..AUTHORITY_OFFSET] == before[..AUTHORITY_OFFSET];
    assert Rotated(before, after);
    InvStays(env, a, b);
  }

  lemma InstructionStep(env: Env, a: Accounts, metas: seq<Meta>, data: seq<byte>)
    requires env.Valid() && Inv(env, a) && Process(env, a, metas, data).Ok?
    ensures Inv(env, Process(env, a, metas, data).value.accounts)
    ensures Evolves(env, a, Process(env, a, metas, data).value.accounts)
  {
    hide Settled, TokensSettled;
    match Unpack(data).value
    case CreateNamespace(namespaceId, authority) =>
      NamespaceCreation(env, a, metas, namespaceId, authority);
      CreationKeepsInv(env, a, NamespaceCreated(env, a, metas, namespaceId, authority).value.accounts, metas[2].key);
    case SetNamespaceAuthority(newAuthority) => RotationStep(env, a, metas, newAuthority);
    case SettleN(_, _, _) => SettlementStep(env, a, metas, data);
    case SettleTokenN(_, _, _, _) => SettlementStep(env, a, metas, data);
  }

  // ----- Runs -----

  /**
    What everyone else may do between two instructions of the program: anything,
    short of debiting or rewriting what the program owns, or signing for a
    derived address. An account assigned to the program from outside arrives
    zeroed.
   */
  ghost predicate LegalOutside(env: Env, a: Accounts, b: Accounts) {
    forall k: Key ::
      && (Owned(env, a, k) ==> Owned(env, b, k) && Lamports(a, k) <= Lamports(b, k) && At(b, k).data == At(a, k).data)
      && (IsDerived(env, k) ==> At(b, k).owner == At(a, k).owner && At(b, k).data == At(a, k).data)
      && (Owned(env, b, k) && !Owned(env, a, k) ==> forall i :: 0 <= i < |At(b, k).data| ==> At(b, k).data[i] == 0)
  }

  datatype Step = Instruct(metas: seq<Meta>, data: seq<byte>) | Outside(next: Accounts)

  /** A failing instruction leaves the state as it was. */
  ghost function Apply(env: Env, a: Accounts, step: Step): Accounts {
    match step
    case Instruct(metas, data) =>
      var outcome := Process(env, a, metas, data);
      if outcome.Ok? then outcome.value.accounts else a
    case Outside(next) => if LegalOutside(env, a, next) then next else a
  }

  ghost function After(env: Env, a: Accounts, steps: seq<Step>): Accounts {
    if steps == [] then a else Apply(env, After(env, a, steps[..|steps| - 1]), steps[|steps| - 1])
  }

  /** The program has just been deployed: it owns nothing, and derived addresses hold at most lamports. */
  ghost predicate Genesis(env: Env, a: Accounts) {
    forall k: Key :: !Owned(env, a, k) && (IsDerived(env, k) ==> Untouched(a, k))
  }

  lemma StepKeepsInv(env: Env, a: Accounts, step: Step)
    requires env.Valid() && Inv(env, a)
    ensures Inv(env, Apply(env, a, step)) && Evolves(env, a, Apply(env, a, step))
  {
    match step
    case Instruct(metas, data) =>
      hide Process;
      if Process(env, a, metas, data).Ok? {
        InstructionStep(env, a, metas, data);
      }
    case Outside(next) =>
      if LegalOutside(env, a, next) {
        InvStays(env, a, next);
      }
  }

  /**
    In every reachable state each account the program owns is a namespace at
    the address its contents derive, a record at the address of a live
    namespace and its stored event, or inert; and every derived address is
    either one of those or an empty system account.
   */
  lemma {:induction false} InvariantOfEveryRun(env: Env, a: Accounts, steps: seq<Step>)
    requires env.Valid() && Genesis(env, a)
    ensures Inv(env, After(env, a, steps))
  {
    if steps != [] {
      InvariantOfEveryRun(env, a, steps[..|steps| - 1]);
      StepKeepsInv(env, After(env, a, steps[..|steps| - 1]), steps[|steps| - 1]);
    }
  }

  /**
    From any state to any later one: records never change or disappear, a
    namespace keeps its creator, id and bump, and no owned account is debited.
   */
  lemma {:induction false} NothingIsUndone(env: Env, a: Accounts, steps: seq<Step>, i: nat, j: nat)
    requires env.Valid() && Genesis(env, a) && i <= j <= |steps|
    ensures Evolves(env, After(env, a, steps[..i]), After(env, a, steps[..j]))
    decreases j - i
  {
    hide Inv, Process, LegalOutside;
    if i < j {
      NothingIsUndone(env, a, steps, i, j - 1);
      var before := After(env, a, steps[..j - 1]);
      InvariantOfEveryRun(env, a, steps[..j - 1]);
      assert steps[..j][..j - 1] == steps[..j - 1];
      StepKeepsInv(env, before, steps[j - 1]);
      EvolvesTransitive(env, After(env, a, steps[..i]), before, After(env, a, steps[..j]));
    }
  }

  ghost predicate SettlesAt(env: Env, a: Accounts, steps: seq<Step>, i: nat, namespace: Key, eventId: Key)
    requires i < |steps|
  {
    steps[i].Instruct? && Settles(env, After(env, a, steps[..i]), steps[i].metas, steps[i].data, namespace, eventId)
  }

  /** The record is not there before its settlement, and is there after. */
  lemma SettlementAppears(env: Env, a: Accounts, steps: seq<Step>, i: nat, namespace: Key, eventId: Key)
    requires env.Valid() && Genesis(env, a) && i < |steps| && SettlesAt(env, a, steps, i, namespace, eventId)
    ensures !Owned(env, After(env, a, steps[..i]), RecordAddress(env, namespace, eventId))
    ensures Owned(env, After(env, a, steps[..i + 1]), RecordAddress(env, namespace, eventId))
  {
    hide Process, Inv, Evolves, IsNamespace, IsRecordOf, RecordAddress;
    InvariantOfEveryRun(env, a, steps[..i]);
    assert steps[..i + 1][..i] == steps[..i];
    SettlementStep(env, After(env, a, steps[..i]), steps[i].metas, steps[i].data);
  }

  lemma NotSettledTwice(env: Env, a: Accounts, steps: seq<Step>, i: nat, j: nat, namespace: Key, eventId: Key)
    requires env.Valid() && Genesis(env, a) && i < j < |steps|
    ensures !(SettlesAt(env, a, steps, i, namespace, eventId) && SettlesAt(env, a, steps, j, namespace, eventId))
  {
    hide SettlesAt;
    if SettlesAt(env, a, steps, i, namespace, eventId) && SettlesAt(env, a, steps, j, namespace, eventId) {
      SettlementAppears(env, a, steps, i, namespace, eventId);
      SettlementAppears(env, a, steps, j, namespace, eventId);
      NothingIsUndone(env, a, steps, i + 1, j);
    }
  }

  /** Each event of a namespace is settled at most once, in lamports and tokens together. */
  lemma SettledAtMostOnce(env: Env, a: Accounts, steps: seq<Step>, i: nat, j: nat, namespace: Key, eventId: Key)
    requires env.Valid() && Genesis(env, a) && i < |steps| && j < |steps|
    requires SettlesAt(env, a, steps, i, namespace, eventId) && SettlesAt(env, a, steps, j, namespace, eventId)
    ensures i == j
  {
    hide SettlesAt;
    if i < j {
      NotSettledTwice(env, a, steps, i, j, namespace, eventId);
    } else if j < i {
      NotSettledTwice(env, a, steps, j, i, namespace, eventId);
    }
  }

  // ----- Who may do what -----

  /** The amount the client reads in a record. */
  function RecordedAmount(data: seq<byte>): nat
    requires |data| == RECORD_SIZE
  {
    FromLe(data[33..])
  }

  /** A record is read as what was written: a record, of that event, for that amount. */
  lemma RecordReadsBack(eventId: Key, amount: u64)
    ensures var data := RecordData(eventId, amount);
            data[0] == 1 && data[1..33] == eventId && RecordedAmount(data) == amount
  {
    var data := RecordData(eventId, amount);
    assert data[1..33] == eventId && data[33..] == Le(amount, 8);
    FromLeOfLe(amount, 8);
  }

  /** The two derivations never hash the same bytes, and each determines its parts. */
  lemma SeedsAreDistinct(k1: Key, x1: Key, k2: Key, x2: Key)
    ensures RecordSeeds(k1, x1) != NamespaceSeeds(k2, x2)
    ensures RecordSeeds(k1, x1) == RecordSeeds(k2, x2) ==> k1 == k2 && x1 == x2
    ensures NamespaceSeeds(k1, x1) == NamespaceSeeds(k2, x2) ==> k1 == k2 && x1 == x2
  {
    assert RecordSeeds(k1, x1)[10..42] == k1 && RecordSeeds(k1, x1)[42..] == x1;
    assert RecordSeeds(k2, x2)[10..42] == k2 && RecordSeeds(k2, x2)[42..] == x2;
    assert NamespaceSeeds(k1, x1)[9..41] == k1 && NamespaceSeeds(k1, x1)[41..] == x1;
    assert NamespaceSeeds(k2, x2)[9..41] == k2 && NamespaceSeeds(k2, x2)[41..] == x2;
  }

  /** The seeds an instruction derives an address from. */
  function SeedsOf(step: Step): Option<seq<byte>> {
    if step.Outside? || |step.metas| <= 2 then None
    else
      match Unpack(step.data)
      case Some(CreateNamespace(namespaceId, _)) => Some(NamespaceSeeds(step.metas[1].key, namespaceId))
      case Some(SettleN(eventId, _, _)) => Some(RecordSeeds(step.metas[2].key, eventId))
      case Some(SettleTokenN(eventId, _, _, _)) => Some(RecordSeeds(step.metas[2].key, eventId))
      case _ => None
  }

  /** The step derives the address of `seeds` from other seeds: a hash collision. */
  ghost predicate Collides(env: Env, step: Step, seeds: seq<byte>) {
    SeedsOf(step).Some? && SeedsOf(step).value != seeds && env.find(SeedsOf(step).value) == env.find(seeds)
  }

  /**
    A step that brings the record of an event into being settles that very
    event in that namespace, and the namespace's authority of that moment
    signed it; short of a hash collision in that step.
   */
  lemma RecordNeedsAuthority(env: Env, a: Accounts, step: Step, namespace: Key, eventId: Key)
    requires env.Valid() && Inv(env, a)
    requires var record := RecordAddress(env, namespace, eventId);
             !Owned(env, a, record) && Owned(env, Apply(env, a, step), record)
    requires !Collides(env, step, RecordSeeds(namespace, eventId))
    ensures step.Instruct? && Settles(env, a, step.metas, step.data, namespace, eventId)
    ensures IsNamespace(env, a, namespace)
    ensures exists m <- step.metas :: m.isSigner && m.key == AuthorityOf(At(a, namespace).data)
  {
    var record := RecordAddress(env, namespace, eventId);
    assert IsDerived(env, record);
    match step
    case Outside(next) =>
    case Instruct(metas, data) =>
      hide Settled, TokensSettled;
      match Unpack(data).value {
        case CreateNamespace(namespaceId, authority) =>
          NamespaceCreation(env, a, metas, namespaceId, authority);
        case SetNamespaceAuthority(newAuthority) =>
          RotationStep(env, a, metas, newAuthority);
        case _ =>
          SettlementStep(env, a, metas, data);
          SeedsAreDistinct(namespace, eventId, metas[2].key, SettledEvent(data).value);
          assert metas[1] in metas;
      }
  }

  /** Every record of a run goes back to a settlement its namespace's authority signed. */
  lemma {:induction false} RecordProvenance(env: Env, a: Accounts, steps: seq<Step>, namespace: Key, eventId: Key)
    returns (i: nat)
    requires env.Valid() && Genesis(env, a)
    requires Owned(env, After(env, a, steps), RecordAddress(env, namespace, eventId))
    requires forall step <- steps :: !Collides(env, step, RecordSeeds(namespace, eventId))
    ensures i < |steps| && SettlesAt(env, a, steps, i, namespace, eventId)
    ensures IsNamespace(env, After(env, a, steps[..i]), namespace)
    ensures exists m <- steps[i].metas ::
              m.isSigner && m.key == AuthorityOf(At(After(env, a, steps[..i]), namespace).data)
  {
    var n := |steps| - 1;
    var before := After(env, a, steps[..n]);
    InvariantOfEveryRun(env, a, steps[..n]);
    if Owned(env, before, RecordAddress(env, namespace, eventId)) {
      i := RecordProvenance(env, a, steps[..n], namespace, eventId);
      assert steps[..n][..i] == steps[..i];
    } else {
      RecordNeedsAuthority(env, before, steps[n], namespace, eventId);
      i := n;
    }
  }

  /** A namespace's authority changes only in a rotation both the old and the new authority signed. */
  lemma RotationNeedsBoth(env: Env, a: Accounts, step: Step, namespace: Key)
    requires env.Valid() && Inv(env, a) && IsNamespace(env, a, namespace)
    requires At(Apply(env, a, step), namespace).data != At(a, namespace).data
    ensures step.Instruct? && Unpack(step.data).Some? && Unpack(step.data).value.SetNamespaceAuthority?
    ensures IsNamespace(env, Apply(env, a, step), namespace)
    ensures exists m <- step.metas :: m.isSigner && m.key == AuthorityOf(At(a, namespace).data)
    ensures exists m <- step.metas :: m.isSigner && m.key == AuthorityOf(At(Apply(env, a, step), namespace).data)
  {
    StepKeepsInv(env, a, step);
    NamespaceStays(env, a, Apply(env, a, step), namespace);
    match step
    case Outside(next) =>
    case Instruct(metas, data) =>
      hide Settled, TokensSettled;
      match Unpack(data).value {
        case CreateNamespace(namespaceId, authority) =>
          NamespaceCreation(env, a, metas, namespaceId, authority);
        case SetNamespaceAuthority(newAuthority) =>
          RotationStep(env, a, metas, newAuthority);
          assert metas[0] in metas && metas[2] in metas;
        case _ =>
          SettlementStep(env, a, metas, data);
      }
  }
}

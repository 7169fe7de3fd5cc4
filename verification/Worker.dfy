/**
  The settlement worker: settles pending events one transaction each, and
  decides every uncertain outcome from the chain. A step that throws or dies
  ends the method there; whatever it ends at, the protocol's invariant holds.
 */
module Worker {
  import opened Basics
  import opened Codec
  import opened Program
  import opened Runs
  import opened Text
  import opened Evidence
  import opened Cluster
  import opened EvidenceLaws
  import opened Search
  import opened SearchLaws
  import opened Tables
  import opened Books
  import opened Stores
  import opened Networks
  import opened Protocol
  import opened ProtocolSteps
  import opened Deciding

  class SettlementWorker {
    const store: Store
    const network: Network
    const payer: Key
    const authority: Key
    const namespace: Key
    const scale: int
    /** Whether a second provider is configured. */
    const second: bool
    const maxAttempts: nat
    /** The signature of some instructions under a blockhash, if signing succeeds. */
    const sign: (seq<TxInstruction>, Blockhash) -> Option<string>

    constructor (store: Store, network: Network, payer: Key, authority: Key, namespace: Key, scale: int, second: bool,
                 maxAttempts: nat, sign: (seq<TxInstruction>, Blockhash) -> Option<string>)
      requires network.Valid() && store.Listable()
      requires Sound(Rules(network.nature.client, maxAttempts), World(store.Tables(), network.Now(), network.forwarded))
      ensures Valid() && this.store == store && this.network == network && this.maxAttempts == maxAttempts
      ensures Current() == Params(network.nature.client.env.programId, namespace, scale, payer, authority)
    {
      this.store, this.network := store, network;
      this.payer, this.authority, this.namespace, this.scale := payer, authority, namespace, scale;
      this.second, this.maxAttempts, this.sign := second, maxAttempts, sign;
    }

    function Config(): Rules {
      Rules(network.nature.client, maxAttempts)
    }

    ghost function Now(): World
      reads store, network
    {
      World(store.Tables(), network.Now(), network.forwarded)
    }

    /** The protocol's invariant, of the world as it is. */
    ghost predicate Valid()
      reads store, network
    {
      network.Valid() && store.Listable() && Sound(Config(), Now())
    }

    /** The store never fails and, whatever befell before, every provider now answers at once and in full. */
    ghost predicate Healthy()
      reads network
    {
      store.Steady() && network.nature.Prompt(network.calls)
    }

    /** Nothing is waited for; health lasts, and then no time passes. */
    twostate predicate StaysHealthy()
      reads network
    {
      network.rests == old(network.rests) && (old(Healthy()) ==> Healthy() && network.now == old(network.now))
    }

    /** Health lasts while time passes. */
    twostate predicate KeepsHealthy()
      reads network
    {
      old(Healthy()) ==> Healthy()
    }

    function Current(): Params {
      Params(network.nature.client.env.programId, namespace, scale, payer, authority)
    }

    lemma ClientIsValid()
      requires network.Valid()
      ensures ClientValid(network.nature.client)
    {}

    /** Time passing keeps the invariant. */
    lemma Elapsed(t: nat)
      requires network.Valid() && store.Listable() && t <= network.now
      requires Sound(Config(), World(store.Tables(), network.nature.timeline(t), network.forwarded))
      ensures Valid()
    {
      TimePasses(network.nature, t, network.now);
      SoundLater(Config(), World(store.Tables(), network.nature.timeline(t), network.forwarded), network.Now());
    }

    /** A provider's view belongs to the past. */
    lemma ViewIsPast(provider: Provider)
      requires network.Valid()
      ensures ChainInv(network.nature.client.env, network.View(provider)) && ChainInv(network.nature.client.env, network.Now())
      ensures Later(network.nature.client.env, network.View(provider), network.Now())
    {
      TimePasses(network.nature, network.Seen(provider), network.now);
    }

    /** A row of the event, and the event, as the invariant has them. */
    lemma TidyRow(e: string, k: nat)
      requires Valid() && (e, k) in store.attempts
      ensures e in store.events && RowTidy(network.nature.client, store.attempts[(e, k)], store.events[e], k)
    {
      assert EventTidy(Config(), store.Tables(), e);
    }

    lemma TidyEvent(e: string)
      requires Valid() && e in store.events
      ensures EventTidy(Config(), store.Tables(), e) && Numbered(store.Tables(), e, store.events[e].attempts)
      ensures store.events[e].eventId == e == store.events[e].request.eventId
    {}

    /** A send keeps the invariant: the row already holds what was sent. */
    lemma SentKeeps(t: nat, forwarded: set<Tx>, tx: Tx, e: string, k: nat)
      requires network.Valid() && store.Listable() && t <= network.now
      requires Sound(Config(), World(store.Tables(), network.nature.timeline(t), forwarded))
      requires network.forwarded == forwarded || network.forwarded == forwarded + {tx}
      requires (e, k) in store.attempts && store.attempts[(e, k)].raw == Some(tx) && store.attempts[(e, k)].status == SIGNED
      ensures Valid()
    {
      var w := World(store.Tables(), network.nature.timeline(t), forwarded);
      SendKeeps(Config(), w, tx, e, k);
      TimePasses(network.nature, t, network.now);
      hide Sound, IsListable, Nature.Lawful, ChainInv, Later;
      SoundLater(Config(), w.(forwarded := network.forwarded), network.Now());
    }

    // ----- Writes that keep the invariant -----

    /** Close an attempt that was never sent, or cannot land any more. */
    method Close(e: string, k: nat, status: AttemptStatus) returns (r: Try<()>)
      requires Valid() && (e, k) in store.attempts && e in store.events && store.events[e].status != PAID
      requires IsClosed(status) && (status == EXPIRED ==> store.attempts[(e, k)].raw.Some?)
      requires var raw := store.attempts[(e, k)].raw;
               raw.Some? && raw.value in network.forwarded ==> IsDead(network.Now(), raw.value)
      modifies store
      ensures Valid()
      ensures store.Tables() == if r.Done? then WithAttemptStatus(old(store.Tables()), e, k, status) else old(store.Tables())
      ensures Concerns(old(store.Tables()), store.Tables(), e) && store.events == old(store.events)
      ensures store.Tables() == old(store.Tables()).(attempts := store.attempts)
      ensures store.Steady() ==> r.Done?
    {
      hide Sound, IsListable, Nature.Lawful, IsDead, WithAttemptStatus, Concerns;
      CloseKeeps(Config(), Now(), e, k, status);
      AttemptOnly(store.Tables(), e, k, status);
      AttemptElsewhere(store.Tables(), e, k, status);
      r := store.SetAttemptStatus(e, k, status);
    }

    /** Change an event's status. */
    method Mark(e: string, status: EventStatus) returns (r: Try<()>)
      requires Valid() && e in store.events && store.events[e].status != PAID && status != PAID
      requires status == PENDING ==> AllClosed(store.Tables(), e)
      requires status == INCIDENT ==>
                 exists j, namespace: Key :: 0 <= j < |network.Now().landed|
                   && IsIncident(Config(), store.Tables(), network.Now().landed[j], e, namespace)
      modifies store
      ensures Valid()
      ensures store.Tables() == if r.Done? then WithStatus(old(store.Tables()), e, status) else old(store.Tables())
      ensures Concerns(old(store.Tables()), store.Tables(), e) && e in store.events
      ensures store.events[e] == if r.Done? then old(store.events)[e].(status := status) else old(store.events)[e]
      ensures store.Steady() ==> r.Done?
      ensures store.attempts == old(store.attempts)
    {
      hide Sound, IsListable, Nature.Lawful, WithStatus, IsIncident, AllClosed, Concerns;
      StatusKeeps(Config(), Now(), e, status);
      StatusElsewhere(store.Tables(), e, status);
      r := store.SetEventStatus(e, status);
    }

    // ----- Reads -----

    /** What a provider that has caught up with moment `n` says of the event's record. */
    function RecordAsOf(n: nat, e: string): Try<bool> {
      var client := network.nature.client;
      var seed := client.eventSeed(e);
      ReadRecord(client.env, At(network.nature.timeline(n).accounts, RecordAddress(client.env, namespace, seed)), seed)
    }

    /** Whether the event's record exists, as a provider sees it. */
    method FetchRecord(provider: Provider, e: string) returns (r: Try<bool>)
      requires Valid()
      modifies network
      ensures Valid() && network.Passes() && network.forwarded == old(network.forwarded)
      ensures r.Done? ==> r == RecordAsOf(network.Seen(provider), e)
      ensures r == Done(false) ==>
                !RecordExists(network.nature.client.env, network.View(provider), namespace, network.nature.client.eventSeed(e))
      ensures provider.Second? ==> network.seenPrimary == old(network.seenPrimary)
      ensures StaysHealthy()
      ensures old(Healthy()) ==> r == RecordAsOf(network.now, e)
    {
      var client := network.nature.client;
      var seed := client.eventSeed(e);
      ghost var t := network.now;
      hide Sound, IsListable, Nature.Lawful;
      var account := network.GetAccount(provider, RecordAddress(client.env, namespace, seed));
      Elapsed(t);
      if !account.Done? {
        return account.PropagateFailure();
      }
      return ReadRecord(client.env, account.value, seed);
    }

    /** A provider's view never gets lower. */
    lemma ViewOnlyRises(seen: nat)
      requires network.Valid() && seen <= network.seenPrimary
      ensures network.nature.timeline(seen).height <= network.View(Primary).height
    {
      TimePasses(network.nature, seen, network.seenPrimary);
    }

    method SignatureStatus(signature: string) returns (r: Try<Option<Status>>)
      requires Valid()
      modifies network
      ensures Valid() && network.Passes() && network.forwarded == old(network.forwarded)
      ensures old(network.View(Primary).height) <= network.View(Primary).height
      ensures r.Done? && r.value.Some? && !r.value.value.level.Processed? ==>
                exists i :: 0 <= i < |network.View(Primary).landed|
                            && network.View(Primary).landed[i].tx.signature == signature
                            && r.value.value.failed == network.View(Primary).landed[i].outcome.None?
      ensures StaysHealthy()
      ensures old(Healthy()) ==> r == Done(StatusIn(network.Now(), signature))
    {
      ghost var t, seen := network.now, network.Seen(Primary);
      hide Sound, IsListable, Nature.Lawful, LandingOf;
      r := network.GetSignatureStatus(signature);
      Elapsed(t);
      ViewOnlyRises(seen);
    }

    method BlockHeight() returns (r: Try<nat>)
      requires Valid()
      modifies network
      ensures Valid() && network.Passes() && network.forwarded == old(network.forwarded)
      ensures r.Done? ==> r.value == network.View(Primary).height
      ensures StaysHealthy()
      ensures old(Healthy()) ==> r == Done(network.Now().height)
    {
      ghost var t := network.now;
      hide Sound, IsListable, Nature.Lawful;
      r := network.GetBlockHeight();
      Elapsed(t);
    }

    /** Send a signed attempt's bytes. */
    method Submit(e: string, k: nat, preflight: bool) returns (r: Try<Sent>)
      requires Valid() && (e, k) in store.attempts && store.attempts[(e, k)].status == SIGNED
      requires store.attempts[(e, k)].raw.Some?
      modifies network
      ensures Valid() && network.Passes()
      ensures old(network.View(Primary).height) <= network.View(Primary).height
      ensures r == Done(SimulationFailed) ==> preflight && network.forwarded == old(network.forwarded)
      ensures network.sends == old(network.sends) + [Sending(store.attempts[(e, k)].raw.value, preflight)]
      ensures r != Done(SimulationFailed) ==> store.attempts[(e, k)].raw.value in network.forwarded
      ensures StaysHealthy()
      ensures old(Healthy()) ==> r == Done(Passed)
    {
      hide Sound, IsListable, Nature.Lawful, Nature.Prompt, ChainInv, Later, LandingOf, IsPrompt;
      ghost var t, seen, forwarded := network.now, network.Seen(Primary), network.forwarded;
      var tx := store.attempts[(e, k)].raw.value;
      r := network.Send(tx, preflight);
      SentKeeps(t, forwarded, tx, e, k);
      ViewOnlyRises(seen);
    }

    // ----- May an attempt still land? -----

    /** An attempt that landed with an error is closed once that is final; until then it may yet be undone. */
    method Landed(e: string, attempt: StoredAttempt, status: Status) returns (r: Try<bool>)
      requires Valid() && e in store.events && store.events[e].status == IN_FLIGHT
      requires (e, attempt.attempt) in store.attempts && store.attempts[(e, attempt.attempt)] == attempt
      requires attempt.status == SIGNED && attempt.raw.Some?
      requires !status.level.Processed? ==>
                 exists i :: 0 <= i < |network.View(Primary).landed|
                             && network.View(Primary).landed[i].tx.signature == attempt.raw.value.signature
                             && status.failed == network.View(Primary).landed[i].outcome.None?
      modifies store
      ensures Valid()
      ensures || store.Tables() == old(store.Tables())
              || store.Tables() == WithAttemptStatus(old(store.Tables()), e, attempt.attempt, FAILED)
      ensures r == Done(false) ==> RowSpent(store.Tables(), network.View(Primary), e, attempt.attempt)
      ensures r.Done? ==> r.value == (status.level.Processed? || (status.level.Confirmed? && status.failed))
      ensures store.Steady() ==> r.Done?
      ensures store.Steady() && status.level.Finalized? ==>
                store.Tables() == if status.failed then WithAttemptStatus(old(store.Tables()), e, attempt.attempt, FAILED)
                                  else old(store.Tables())
    {
      hide Sound, IsListable, Nature.Lawful, IsDead, RowSpent, CanLand, Concerns, WithAttemptStatus, ChainInv, Later;
      if status.level.Processed? {
        return Done(true);
      }
      ghost var i :| 0 <= i < |network.View(Primary).landed|
                     && network.View(Primary).landed[i].tx.signature == attempt.raw.value.signature
                     && status.failed == network.View(Primary).landed[i].outcome.None?;
      if status.failed {
        if status.level.Confirmed? {
          return Done(true);
        }
        ViewIsPast(Primary);
        SameLanding(network.nature.client.env, network.View(Primary), network.Now(), i);
        FailedIsDead(network.nature.client.env, network.Now(), attempt.raw.value, i);
        var _ :- Close(e, attempt.attempt, FAILED);
        NowFailed(old(store.Tables()), e, attempt.attempt, network.View(Primary));
        return Done(false);
      }
      HasLandedIsSpent(store.Tables(), e, attempt.attempt, network.View(Primary), i);
      return Done(false);
    }

    /** A signed attempt the node knows no status of: too late to land, or sent again unchanged. */
    method CheckUnseen(e: string, attempt: StoredAttempt, height: Option<nat>) returns (r: Try<(bool, Option<nat>)>)
      requires Valid() && e in store.events && attempt.status == SIGNED
      requires (e, attempt.attempt) in store.attempts && store.attempts[(e, attempt.attempt)] == attempt
      requires attempt.raw.Some? ==> attempt.lastValidBlockHeight == Some(attempt.raw.value.lastValidBlockHeight)
      requires height.Some? ==> height.value <= network.View(Primary).height
      modifies network
      ensures Valid() && network.Passes()
      ensures r.Done? && r.value.1.Some? ==> r.value.1.value <= network.View(Primary).height
      ensures r.Done? && !r.value.0 && attempt.raw.Some? ==> !CanLand(network.View(Primary), attempt.raw.value)
      ensures r.Done? && r.value.0 ==> WasHanded(attempt, network.forwarded, network.sends[|old(network.sends)|..])
      ensures StaysHealthy()
      ensures old(Healthy()) && (height.Some? ==> height.value == network.Now().height) ==>
                && r.Done?
                && (r.value.0 <==> attempt.lastValidBlockHeight.Some? && attempt.raw.Some?
                                   && network.Now().height <= attempt.lastValidBlockHeight.value)
                && (r.value.1.Some? ==> r.value.1.value == network.Now().height)
    {
      hide Sound, IsListable, Nature.Lawful, Nature.Prompt;
      var known := height;
      if known.None? {
        var read :- BlockHeight();
        known := Some(read);
      }
      if attempt.lastValidBlockHeight.Some? && known.value <= attempt.lastValidBlockHeight.value && attempt.raw.Some? {
        ghost var n := |network.sends|;
        var sent := Submit(e, attempt.attempt, false);
        assert network.sends[|old(network.sends)|..][n - |old(network.sends)|] == Sending(attempt.raw.value, false);
        if sent.Crashed? {
          return Crashed;
        }
        return Done((true, known));
      }
      return Done((false, known));
    }

    /**
      Check one attempt: its status first and, where the node knows none, the
      block height. Bytes that could still land are sent again unchanged.
     */
    method CheckAttempt(e: string, attempt: StoredAttempt, height: Option<nat>) returns (r: Try<(bool, Option<nat>)>)
      requires Valid() && e in store.events && store.events[e].status == IN_FLIGHT
      requires (e, attempt.attempt) in store.attempts && store.attempts[(e, attempt.attempt)] == attempt
      requires height.Some? ==> height.value <= network.View(Primary).height
      modifies store, network
      ensures Valid() && network.Passes()
      ensures || store.Tables() == old(store.Tables())
              || store.Tables() == WithAttemptStatus(old(store.Tables()), e, attempt.attempt, FAILED)
      ensures r.Done? && r.value.1.Some? ==> r.value.1.value <= network.View(Primary).height
      ensures r.Done? && !r.value.0 ==> RowSpent(store.Tables(), network.View(Primary), e, attempt.attempt)
      ensures StaysHealthy()
      ensures old(Healthy()) && (height.Some? ==> height.value == network.Now().height) ==>
                && r.Done? && r.value.0 == MayLand(network.Now(), attempt)
                && (r.value.1.Some? ==> r.value.1.value == network.Now().height)
                && (MayLand(network.Now(), attempt) ==>
                      WasHanded(attempt, network.forwarded, network.sends[|old(network.sends)|..]))
      ensures old(Healthy()) ==>
                store.Tables() == if IsFailed(network.Now(), attempt)
                                  then WithAttemptStatus(old(store.Tables()), e, attempt.attempt, FAILED)
                                  else old(store.Tables())
    {
      hide Sound, IsListable, Nature.Lawful, Nature.Prompt, IsDead, IsBuilt, WithAttemptStatus, RowSpent, CanLand,
        LandingOf, Concerns, ChainInv, Later;
      var k := attempt.attempt;
      TidyRow(e, k);
      if attempt.status == PREPARED {
        var _ :- Close(e, k, FAILED);
        NowFailed(old(store.Tables()), e, k, network.View(Primary));
        return Done((false, height));
      }
      if attempt.status != SIGNED || attempt.signature.None? {
        NotSigned(store.Tables(), e, k, network.View(Primary));
        return Done((false, height));
      }
      var status :- SignatureStatus(attempt.signature.value);
      if status.Some? {
        var waiting :- Landed(e, attempt, status.value);
        return Done((waiting, height));
      }
      r := CheckUnseen(e, attempt, height);
      if r.Done? && !r.value.0 {
        CannotLandIsSpent(store.Tables(), e, k, network.View(Primary));
      }
    }

    /** What the check of the first `i` attempts has found. */
    twostate predicate Checked(e: string, attempts: seq<StoredAttempt>, i: nat, waiting: bool, new height: Option<nat>)
      requires i <= |attempts|
      reads store, network
    {
      && network.Passes()
      && e in store.events && store.events == old(store.events)
      && store.Tables() == old(store.Tables()).(attempts := store.attempts)
      && Concerns(old(store.Tables()), store.Tables(), e)
      && ClosedSome(store.Tables(), e, attempts, i)
      && (height.Some? ==> height.value <= network.View(Primary).height)
      && (!waiting ==> Spent(store.Tables(), network.View(Primary), e, i))
      && StaysHealthy()
      && (old(Healthy()) ==>
            && (height.Some? ==> height.value == network.Now().height)
            && ClosedFailed(store.Tables(), network.Now(), e, attempts, i)
            && waiting == (exists j :: 0 <= j < i && MayLand(network.Now(), attempts[j]))
            && AllHanded(network.Now(), attempts, i, network.forwarded, network.sends[|old(network.sends)|..]))
    }

    /** Check the next attempt. */
    method CheckNext(e: string, attempts: seq<StoredAttempt>, i: nat, waiting: bool, height: Option<nat>)
      returns (r: Try<(bool, Option<nat>)>)
      requires Valid() && e in store.events && store.events[e].status == IN_FLIGHT
      requires i < |attempts| && ClosedSome(store.Tables(), e, attempts, i)
      requires height.Some? ==> height.value <= network.View(Primary).height
      requires !waiting ==> Spent(store.Tables(), network.View(Primary), e, i)
      modifies store, network
      ensures Valid() && network.Passes()
      ensures store.events == old(store.events) && store.Tables() == old(store.Tables()).(attempts := store.attempts)
      ensures Concerns(old(store.Tables()), store.Tables(), e) && ClosedSome(store.Tables(), e, attempts, i + 1)
      ensures r.Done? && r.value.1.Some? ==> r.value.1.value <= network.View(Primary).height
      ensures r.Done? && !r.value.0 ==> Spent(store.Tables(), network.View(Primary), e, i + 1)
      ensures StaysHealthy()
      ensures old(Healthy()) && (height.Some? ==> height.value == network.Now().height) ==>
                && r.Done? && (r.value.0 <==> waiting || MayLand(network.Now(), attempts[i]))
                && (r.value.1.Some? ==> r.value.1.value == network.Now().height)
                && (MayLand(network.Now(), attempts[i]) ==>
                      WasHanded(attempts[i], network.forwarded, network.sends[|old(network.sends)|..]))
      ensures old(Healthy()) && ClosedFailed(old(store.Tables()), network.Now(), e, attempts, i) ==>
                ClosedFailed(store.Tables(), network.Now(), e, attempts, i + 1)
    {
      hide Sound, IsListable, Nature.Lawful, Nature.Prompt, MayLand, RowSpent, Spent, CanLand, WithAttemptStatus,
        Concerns, IsBuilt, IsFailed, ClosedFailed;
      ghost var before, seen := store.Tables(), network.Seen(Primary);
      assert Numbered(before, e, |attempts|) && (e, i + 1) in store.attempts;
      TidyRow(e, i + 1);
      hide RowTidy, Numbered;
      var checked := CheckAttempt(e, attempts[i], height);
      AttemptOnly(before, e, attempts[i].attempt, FAILED);
      ClosedOneMore(before, store.Tables(), e, attempts, i);
      if old(Healthy()) && ClosedFailed(before, network.Now(), e, attempts, i) {
        ClosedOneFailed(before, store.Tables(), network.Now(), e, attempts, i);
      }
      if !checked.Done? {
        return checked.PropagateFailure();
      }
      if !waiting && !checked.value.0 {
        TimePasses(network.nature, seen, network.Seen(Primary));
        SpentLater(network.nature.client.env, before, network.nature.timeline(seen), network.View(Primary), e, i);
        SpentNext(before, store.Tables(), network.View(Primary), e, i + 1);
      }
      return Done((waiting || checked.value.0, checked.value.1));
    }

    /**
      Whether any signed attempt could still land. When none can, that holds of
      the chain as the primary has now seen it, so a record read afterwards
      sees whatever any of them did.
     */
    method MayStillLand(e: string, attempts: seq<StoredAttempt>) returns (r: Try<bool>)
      requires Valid() && e in store.events && store.events[e].status == IN_FLIGHT
      requires Numbered(store.Tables(), e, |attempts|) && attempts == AttemptsOf(store.Tables(), e, |attempts|)
      modifies store, network
      ensures Valid() && network.Passes()
      ensures Concerns(old(store.Tables()), store.Tables(), e) && store.events == old(store.events)
      ensures store.Tables() == old(store.Tables()).(attempts := store.attempts)
      ensures ClosedSome(store.Tables(), e, attempts, |attempts|)
      ensures r == Done(false) ==> Spent(store.Tables(), network.View(Primary), e, |attempts|)
      ensures StaysHealthy()
      ensures old(Healthy()) ==> r == Done(exists i :: 0 <= i < |attempts| && MayLand(network.Now(), attempts[i]))
      ensures old(Healthy()) ==> ClosedFailed(store.Tables(), network.Now(), e, attempts, |attempts|)
      ensures old(Healthy()) ==>
                AllHanded(network.Now(), attempts, |attempts|, network.forwarded, network.sends[|old(network.sends)|..])
    {
      hide Sound, IsListable, Nature.Lawful, Nature.Prompt, MayLand, RowSpent, Spent, CanLand, Concerns, ClosedSome,
        ClosedFailed, WasHanded, AllHanded;
      var waiting := false;
      var height: Option<nat> := None;
      StartChecking(store.Tables(), network.View(Primary), e, attempts);
      for i := 0 to |attempts|
        invariant Valid() && Checked(e, attempts, i, waiting, height)
      {
        ghost var before, forwarded, sent := store.Tables(), network.forwarded, network.sends;
        var checked := CheckNext(e, attempts, i, waiting, height);
        SameTwice(old(store.Tables()), before, store.Tables(), e);
        OneMoreHanded(network.Now(), attempts, i, forwarded, network.forwarded, sent, network.sends, |old(network.sends)|);
        if !checked.Done? {
          ClosedMore(store.Tables(), e, attempts, i + 1);
          return checked.PropagateFailure();
        }
        waiting, height := checked.value.0, checked.value.1;
      }
      return Done(waiting);
    }

    // ----- When no record exists -----

    /** Close every signed attempt of an event whose attempts are all closed, signed or dead. */
    method Expire(e: string, ghost n: nat) returns (r: Try<()>)
      requires Valid() && e in store.events && store.events[e].status == IN_FLIGHT
      requires Numbered(store.Tables(), e, n) && DeadRows(store.Tables(), network.Now(), e)
      modifies store
      ensures Valid()
      ensures Concerns(old(store.Tables()), store.Tables(), e) && store.events == old(store.events)
      ensures r.Done? ==> AllClosed(store.Tables(), e) && ExpiredAll(old(store.Tables()), store.Tables(), e)
      ensures store.Tables() == old(store.Tables()).(attempts := store.attempts)
      ensures store.Steady() ==> r.Done?
    {
      hide Sound, IsListable, Nature.Lawful, IsDead, IsBuilt, DeadRows, Concerns, WithAttemptStatus;
      SameAsBefore(store.Tables(), e);
      var attempts :- store.Attempts(e, n);
      StartExpiring(store.Tables(), e, attempts);
      for i := 0 to |attempts|
        invariant Valid() && store.events == old(store.events)
        invariant store.Tables() == old(store.Tables()).(attempts := store.attempts)
        invariant Concerns(old(store.Tables()), store.Tables(), e)
        invariant DeadRows(store.Tables(), network.Now(), e) && Expiring(store.Tables(), e, attempts, i)
      {
        ghost var before := store.Tables();
        DeadRow(before, network.Now(), e, attempts, i);
        if attempts[i].status == SIGNED {
          var _ :- Close(e, i + 1, EXPIRED);
        }
        ExpiredOne(before, store.Tables(), network.Now(), e, attempts, i);
        SameTwice(old(store.Tables()), before, store.Tables(), e);
      }
      AllExpired(old(store.Tables()), store.Tables(), network.Now(), e, attempts);
      return Done(());
    }

    /** A provider sees no record: expire what is left, and let the event be tried again or looked at. */
    method NothingLanded(e: string, attempts: nat) returns (r: Try<Report>)
      requires Valid() && e in store.events && store.events[e].status == IN_FLIGHT && store.events[e].attempts == attempts
      requires DeadRows(store.Tables(), network.Now(), e)
      modifies store
      ensures Valid() && Concerns(old(store.Tables()), store.Tables(), e)
      ensures e in store.events && store.events[e] == old(store.events)[e].(status := store.events[e].status)
      ensures r.Done? ==> store.events[e].status == Told(r.value)
      ensures r.Done? ==> r.value == if attempts >= maxAttempts then Decided(NEEDS_ATTENTION) else RETRY
      ensures r.Done? ==> Leaves(old(store.Tables()), store.Tables(), e, r.value)
      ensures store.Steady() ==> r.Done?
      ensures r.Done? ==> ExpiredAll(old(store.Tables()), store.Tables(), e)
    {
      hide Sound, IsListable, Nature.Lawful, IsDead, DeadRows, Concerns, ExpiredAll, AllClosed, WithStatus, EventTidy,
        Leaves;
      TidyEvent(e);
      var _ :- Expire(e, attempts);
      ghost var expired := store.Tables();
      if attempts >= maxAttempts {
        var _ :- Mark(e, NEEDS_ATTENTION);
        LeftMarked(expired, e, NEEDS_ATTENTION);
        r := Done(Decided(NEEDS_ATTENTION));
      } else {
        var _ :- Mark(e, PENDING);
        LeftMarked(expired, e, PENDING);
        r := Done(RETRY);
      }
      StillLeaves(old(store.Tables()), expired, e, r);
      SameTwice(old(store.Tables()), expired, store.Tables(), e);
      ExpiredStays(old(store.Tables()), expired, store.Tables(), e);
    }

    // ----- When the record exists -----

    /** By moment `n` landing `j` created the event's record, and the primary shows its history in full, without decoys. */
    ghost predicate Traceable(n: nat, e: string, j: nat) {
      var client, c := network.nature.client, network.nature.timeline(n);
      var seed := client.eventSeed(e);
      var record := RecordAddress(client.env, namespace, seed);
      var history, archive := network.nature.endpoint(n, record), network.nature.archive(n);
      && j < |c.landed|
      && CreatesRecord(client.env, c.landed[j], namespace, seed)
      && NoCollision(client.env, c.landed[j].tx.instructions, RecordSeeds(namespace, seed))
      && Reliable(history, archive) && CompleteHistory(c, record, history.history)
      && |history.history| < MAX_SIGNATURES
      && forall i :: 0 <= i < |history.history| ==>
           !IsDecoy(history.history[i], archive, Query(client.env.programId, namespace, seed), c.landed[j].tx.signature)
    }

    /** A complete history without decoys names the creating transaction. */
    lemma TracedVerdict(n: nat, e: string, j: nat)
      requires network.nature.Lawful() && Traceable(n, e, j)
      ensures var client, c := network.nature.client, network.nature.timeline(n);
              var seed := client.eventSeed(e);
              var history := network.nature.endpoint(n, RecordAddress(client.env, namespace, seed));
              var q := Query(client.env.programId, namespace, seed);
              var verdict := Verdict(history.history, network.nature.archive(n), q, MAX_SIGNATURES);
              && verdict.Some? && verdict.value.signature == c.landed[j].tx.signature
              && (verdict.value.topLevel <==> SettlesAtTop(c.landed[j].tx.instructions, namespace, seed))
    {
      var client, c := network.nature.client, network.nature.timeline(n);
      var seed := client.eventSeed(e);
      var history := network.nature.endpoint(n, RecordAddress(client.env, namespace, seed));
      var archive, q := network.nature.archive(n), Query(client.env.programId, namespace, seed);
      TimePasses(network.nature, n, n);
      assert AllKnown(history.history, archive) by {
        forall i | 0 <= i < |history.history| && !history.history[i].failed
          ensures history.history[i].signature in archive
        {
          assert AnswersAlone(history, archive, history.history[i].signature);
        }
      }
      assert Truthful(history, archive) && HonestArchive(client, c, archive);
      hide ChainInv, Later, CreatesRecord, NoCollision, HonestArchive, CompleteHistory, Verdict, IsDecoy, AllKnown;
      FoundUnlessDecoy(client, c, j, history.history, archive, q, MAX_SIGNATURES);
      FoundIsCreator(client, c, j, history.history, archive, q, MAX_SIGNATURES,
                     Verdict(history.history, archive, q, MAX_SIGNATURES).value);
    }

    /** Landing `j` settles the event itself, and not through another program. */
    ghost predicate IsTopLevel(n: nat, e: string, j: nat)
      requires j < |network.nature.timeline(n).landed|
    {
      SettlesAtTop(network.nature.timeline(n).landed[j].tx.instructions, namespace, network.nature.client.eventSeed(e))
    }

    /** Look for the creating transaction in a history the primary served. */
    method Search(e: string, history: Endpoint) returns (r: Try<Found>)
      requires network.Valid()
      requires history == network.nature.endpoint(network.seenPrimary,
                 RecordAddress(network.nature.client.env, namespace, network.nature.client.eventSeed(e)))
      ensures !r.Crashed?
      ensures r.Done? && r.value.topLevel ==>
                exists k :: 0 <= k < |network.Now().landed| && IsCreator(network.Now().landed[k], r.value.signature, e)
      ensures forall j: nat :: Traceable(network.seenPrimary, e, j) ==>
                && r.Done? && r.value.signature == network.View(Primary).landed[j].tx.signature
                && (r.value.topLevel <==> IsTopLevel(network.seenPrimary, e, j))
    {
      var client := network.nature.client;
      var q := Query(client.env.programId, namespace, client.eventSeed(e));
      ghost var archive := network.nature.archive(network.seenPrimary);
      assert Truthful(history, archive);
      hide Nature.Lawful, Truthful, Reliable, Verdict, AllKnown, IsCreator, CompleteHistory, NoCollision, IsDecoy,
        CreatesRecord, SettlesAtTop;
      var found := FindCreatingTransaction(history, q, MAX_SIGNATURES, archive);
      forall j: nat | Traceable(network.seenPrimary, e, j)
        ensures found.Ok? && found.value.signature == network.View(Primary).landed[j].tx.signature
        ensures found.value.topLevel <==> IsTopLevel(network.seenPrimary, e, j)
      {
        TracedVerdict(network.seenPrimary, e, j);
      }
      if found.Err? {
        return Threw;
      }
      if found.value.topLevel {
        FoundCreated(history, q, found.value, e);
      }
      return Done(found.value);
    }

    /** The transaction that created the event's record, from the primary's history. */
    method FindSettlement(e: string) returns (r: Try<Found>)
      requires Valid()
      modifies network
      ensures Valid() && network.Passes() && network.forwarded == old(network.forwarded)
      ensures r.Done? && r.value.topLevel ==>
                exists k :: 0 <= k < |network.Now().landed| && IsCreator(network.Now().landed[k], r.value.signature, e)
      ensures StaysHealthy()
      ensures old(Healthy()) ==> !r.Crashed?
      ensures old(Healthy()) ==>
                forall j: nat :: Traceable(network.now, e, j) ==>
                  && r.Done? && r.value.signature == network.Now().landed[j].tx.signature
                  && (r.value.topLevel <==> IsTopLevel(network.now, e, j))
    {
      hide Sound, IsListable, Nature.Lawful, Nature.Prompt, IsCreator, RecordAddress, CreatesRecord, NoCollision,
        CompleteHistory, Reliable, IsDecoy, IsTopLevel;
      var client := network.nature.client;
      ghost var t := network.now;
      var history := network.GetHistory(RecordAddress(client.env, namespace, client.eventSeed(e)));
      Elapsed(t);
      if !history.Done? {
        return history.PropagateFailure();
      }
      r := Search(e, history.value);
    }

    /** The transaction with the signature created the event's record in the worker's namespace. */
    ghost predicate IsCreator(landing: Landing, signature: string, e: string) {
      && landing.tx.signature == signature
      && CreatesRecord(network.nature.client.env, landing, namespace, network.nature.client.eventSeed(e))
    }

    lemma FoundCreated(history: Endpoint, q: Query, found: Found, e: string)
      requires network.Valid() && found.topLevel
      requires q == Query(network.nature.client.env.programId, namespace, network.nature.client.eventSeed(e))
      requires history == network.nature.endpoint(network.seenPrimary,
                 RecordAddress(network.nature.client.env, namespace, network.nature.client.eventSeed(e)))
      requires Verdict(history.history, network.nature.archive(network.seenPrimary), q, MAX_SIGNATURES) == Some(found)
      ensures exists k :: 0 <= k < |network.Now().landed| && IsCreator(network.Now().landed[k], found.signature, e)
    {
      var view := network.seenPrimary;
      TimePasses(network.nature, view, network.now);
      hide ChainInv, CreatesRecord, Candidates, Verdict, RecordAddress;
      var k := TopLevelFoundCreates(network.nature.client, network.nature.timeline(view), history.history,
                                    network.nature.archive(view), q, MAX_SIGNATURES, found);
      assert network.Now().landed[k] == network.nature.timeline(view).landed[k];
      assert IsCreator(network.Now().landed[k], found.signature, e);
    }

    /**
      Compare a finalized transaction with a stored request; whatever fails on
      the way differs, but is no mismatch. When nothing fails, the answer is
      what there is to know of the transaction.
     */
    method Reconcile(provider: Provider, signature: string, stored: Stored, ids: map<string, string>, ghost landing: Landing)
      returns (r: Try<Judged>)
      requires Valid() && IsLanded(network.Now(), landing, signature)
      modifies network
      ensures Valid() && network.Passes() && network.forwarded == old(network.forwarded)
      ensures IsLanded(network.Now(), landing, signature)
      ensures r.Done? && r.value.Agrees? ==>
                JudgedOn(network.nature.client, network.Now(), signature, stored, ids, Ok(r.value.reconciliation))
      ensures r == Done(Differs(true)) ==> IsDifferent(network.nature.client, network.Now(), signature, stored, ids)
      ensures r.Done? && r.value.Agrees? ==>
                ToldSo(network.nature.client, network.told, |old(network.told)|, provider, signature, stored, ids,
                       Ok(r.value.reconciliation))
      ensures r == Done(Differs(true)) && ids == map[] ==>
                ToldMismatch(network.nature.client, network.told, |old(network.told)|, provider, signature, stored)
      ensures !r.Threw?
      ensures StaysHealthy()
      ensures old(Healthy()) ==> r == Done(Judgement(TruthOf(network.nature.client, landing, stored, ids)))
    {
      hide Sound, IsListable, Nature.Lawful, Nature.Prompt, JudgedOn, IsDifferent, IsLanded, TruthOf, ToldSo;
      ghost var t := network.now;
      var client := network.nature.client;
      var answer := network.GetTransaction(provider, signature);
      Elapsed(t);
      StillLanded(t, landing, signature);
      if answer.Crashed? {
        return Crashed;
      }
      if answer.Threw? || answer.value.None? {
        return Done(Differs(false));
      }
      var judged := Judge(client, answer.value.value, signature, stored.request, stored.params.namespace, stored.params.scale,
                          ids);
      JustTold(client, network.told, |old(network.told)|, provider, signature, stored, ids, answer.value.value);
      AnswerJudged(provider, signature, stored, ids, answer.value.value);
      if answer.value.value.blockTime.Some? {
        TruthSeen(provider, signature, stored, ids, answer.value.value, landing);
      }
      match judged {
        case Ok(reconciliation) => return Done(Agrees(reconciliation));
        case Err(code) =>
          assert IsMismatch(code) ==> IsDifferent(network.nature.client, network.Now(), signature, stored, ids) by {
            Differing(client, network.Now(), signature, stored, ids, code);
          }
          return Done(Differs(IsMismatch(code)));
      }
    }

    /** A landed transaction stays landed, and has a place. */
    lemma StillLanded(t: nat, landing: Landing, signature: string)
      requires network.Valid() && t <= network.now && IsLanded(network.nature.timeline(t), landing, signature)
      ensures IsLanded(network.Now(), landing, signature) && LandingOf(network.Now().landed, signature).Some?
    {
      TimePasses(network.nature, t, network.now);
      hide ChainInv, Later;
      LandedStays(network.nature.client.env, network.nature.timeline(t), network.Now(), landing, signature);
    }

    /** A full answer about the transaction with the signature tells the truth of it. */
    lemma TruthSeen(provider: Provider, signature: string, stored: Stored, ids: map<string, string>, answer: RpcTransaction,
                    landing: Landing)
      requires network.Valid() && answer.blockTime.Some? && IsLanded(network.Now(), landing, signature)
      requires exists i :: 0 <= i < |network.View(provider).landed|
                           && network.View(provider).landed[i].tx.signature == signature
                           && Honest(network.nature.client, answer, network.View(provider).landed[i])
      ensures Judge(network.nature.client, answer, signature, stored.request, stored.params.namespace, stored.params.scale, ids)
           == TruthOf(network.nature.client, landing, stored, ids)
    {
      var client := network.nature.client;
      ViewIsPast(provider);
      hide Judge, TruthOf, Honest, Later, ChainInv, IsLanded;
      var i :| 0 <= i < |network.View(provider).landed|
               && network.View(provider).landed[i].tx.signature == signature
               && Honest(client, answer, network.View(provider).landed[i]);
      SameLanding(client.env, network.View(provider), network.Now(), i);
      LandedOnce(client.env, network.Now(), i, landing, signature);
      TruthTold(client, landing, answer, stored, ids);
    }

    lemma AnswerJudged(provider: Provider, signature: string, stored: Stored, ids: map<string, string>, answer: RpcTransaction)
      requires network.Valid()
      requires exists i :: 0 <= i < |network.View(provider).landed|
                           && network.View(provider).landed[i].tx.signature == signature
                           && Honest(network.nature.client, answer, network.View(provider).landed[i])
      ensures JudgedOn(network.nature.client, network.Now(), signature, stored, ids,
                       Judge(network.nature.client, answer, signature, stored.request, stored.params.namespace,
                             stored.params.scale, ids))
    {
      var client := network.nature.client;
      var judged := Judge(client, answer, signature, stored.request, stored.params.namespace, stored.params.scale, ids);
      ViewIsPast(provider);
      hide Judge, Honest, ChainInv;
      var i :| 0 <= i < |network.View(provider).landed|
               && network.View(provider).landed[i].tx.signature == signature
               && Honest(client, answer, network.View(provider).landed[i]);
      assert IsJudged(client, network.View(provider).landed[i], answer, signature, stored, ids, judged);
      JudgedLater(client, network.View(provider), network.Now(), signature, stored, ids, judged);
    }

    /** Compare every stored request; the first that agrees, and whether all mismatch. */
    method JudgeAll(provider: Provider, signature: string, requests: seq<Stored>, ghost landing: Landing)
      returns (r: Try<(Option<nat>, bool)>)
      requires Valid() && IsLanded(network.Now(), landing, signature)
      modifies network
      ensures Valid() && network.Passes() && network.forwarded == old(network.forwarded)
      ensures !r.Threw?
      ensures r.Done? && r.value.0.Some? ==>
                && r.value.0.value < |requests|
                && IsAgreed(network.nature.client, network.Now(), signature, requests[r.value.0.value])
      ensures r.Done? && r.value.1 ==> AllDiffer(network.nature.client, network.Now(), signature, requests, |requests|)
      ensures r.Done? && r.value.0.Some? ==>
                ToldAgreement(network.nature.client, network.told, |old(network.told)|, provider, signature,
                              requests[r.value.0.value])
      ensures r.Done? && r.value.1 ==>
                ToldMismatches(network.nature.client, network.told, |old(network.told)|, provider, signature, requests,
                               |requests|)
      ensures StaysHealthy()
      ensures IsLanded(network.Now(), landing, signature)
      ensures old(Healthy()) ==>
                r.Done? && Tallied(network.nature.client, landing, requests, |requests|, r.value.0, r.value.1)
    {
      hide Sound, IsListable, Nature.Lawful, Nature.Prompt, JudgedOn, IsMismatch, AllDiffer, IsDifferent, IsAgreed,
        IsLanded, FoundLater, Tallied, TruthOf, ToldSo, ToldMismatch, ToldAgreement;
      var matched: Option<nat> := None;
      var mismatched := true;
      NoneYet(network.nature.client, network.Now(), landing, signature, requests);
      for i := 0 to |requests|
        invariant Valid() && network.Passes() && network.forwarded == old(network.forwarded)
        invariant matched.Some? ==>
                    && matched.value < |requests|
                    && IsAgreed(network.nature.client, network.Now(), signature, requests[matched.value])
        invariant mismatched ==> AllDiffer(network.nature.client, network.Now(), signature, requests, i)
        invariant matched.Some? ==>
                    ToldAgreement(network.nature.client, network.told, |old(network.told)|, provider, signature,
                                  requests[matched.value])
        invariant mismatched ==>
                    ToldMismatches(network.nature.client, network.told, |old(network.told)|, provider, signature, requests, i)
        invariant StaysHealthy() && IsLanded(network.Now(), landing, signature)
        invariant old(Healthy()) ==> Tallied(network.nature.client, landing, requests, i, matched, mismatched)
      {
        ghost var t, told := network.now, network.told;
        if old(Healthy()) {
          TalliedNext(network.nature.client, landing, requests, i, matched, mismatched);
        }
        var judged :- Reconcile(provider, signature, requests[i], map[], landing);
        StillFound(t, signature, requests, |requests|);
        StillFoundBy(network.nature.client, network.nature.timeline(t), network.Now(), signature, requests, i, matched);
        ToldToo(told, |old(network.told)|, provider, signature, requests, i, matched, judged);
        if matched.None? && judged.Agrees? {
          NowAgreed(network.nature.client, network.Now(), signature, requests[i], judged.reconciliation);
          matched := Some(i);
        }
        if judged == Differs(true) {
          NextDiffers(network.nature.client, network.Now(), signature, requests, i);
        }
        mismatched := mismatched && judged == Differs(true);
      }
      return Done((matched, mismatched));
    }

    /** One more answer, and what had been told before. */
    lemma ToldToo(told: seq<Telling>, from: nat, provider: Provider, signature: string, requests: seq<Stored>, i: nat,
                  matched: Option<nat>, judged: Judged)
      requires i < |requests| && from <= |told| && told <= network.told
      requires judged.Agrees? ==>
                 ToldSo(network.nature.client, network.told, |told|, provider, signature, requests[i], map[],
                        Ok(judged.reconciliation))
      requires judged == Differs(true) ==>
                 ToldMismatch(network.nature.client, network.told, |told|, provider, signature, requests[i])
      ensures matched.Some? && matched.value < |requests|
              && ToldAgreement(network.nature.client, told, from, provider, signature, requests[matched.value]) ==>
                ToldAgreement(network.nature.client, network.told, from, provider, signature, requests[matched.value])
      ensures judged.Agrees? ==> ToldAgreement(network.nature.client, network.told, from, provider, signature, requests[i])
      ensures ToldMismatches(network.nature.client, told, from, provider, signature, requests, i) && judged == Differs(true) ==>
                ToldMismatches(network.nature.client, network.told, from, provider, signature, requests, i + 1)
    {
      hide ToldSo, IsMismatch, ToldMismatch;
      var client := network.nature.client;
      StillTold(client, network.told, network.told, |told|, from, provider, signature, requests[i]);
      if matched.Some? && matched.value < |requests| {
        StillTold(client, told, network.told, from, from, provider, signature, requests[matched.value]);
      }
      if ToldMismatches(client, told, from, provider, signature, requests, i) {
        StillToldAll(client, told, network.told, from, from, provider, signature, requests, i);
      }
    }

    /** What was found of the requests stays found. */
    lemma StillFound(t: nat, signature: string, requests: seq<Stored>, n: nat)
      requires network.Valid() && t <= network.now && n <= |requests|
      ensures FoundLater(network.nature.client, network.nature.timeline(t), network.Now(), signature, requests, n)
    {
      TimePasses(network.nature, t, network.now);
      hide ChainInv, Later, FoundLater;
      RequestsLater(network.nature.client, network.nature.timeline(t), network.Now(), signature, requests, n);
    }

    /** What the event was to be settled as: every distinct stored request, or the current parameters if never tried. */
    ghost predicate AreRequests(e: string, requests: seq<Stored>)
      requires e in store.events
      reads store
    {
      requests != [] && forall stored :: IsRequest(store.Tables(), Current(), e, stored) <==> stored in requests
    }

    method Requests(e: string, attempts: seq<StoredAttempt>) returns (requests: seq<Stored>)
      requires Valid() && e in store.events && |attempts| == store.events[e].attempts
      requires Numbered(store.Tables(), e, |attempts|) && attempts == AttemptsOf(store.Tables(), e, |attempts|)
      ensures AreRequests(e, requests)
    {
      hide Sound, IsListable, Nature.Lawful, IsBuilt;
      if attempts == [] {
        requests := [Stored(store.events[e].request, Current())];
      } else {
        requests := DistinctRequests(attempts);
        assert StoredOf(attempts[0]) in requests;
        forall stored
          ensures IsRequest(store.Tables(), Current(), e, stored) <==> stored in requests
        {
          RequestsListed(e, attempts, requests, stored);
        }
      }
    }

    lemma RequestsListed(e: string, attempts: seq<StoredAttempt>, requests: seq<Stored>, stored: Stored)
      requires Valid() && e in store.events && |attempts| == store.events[e].attempts && attempts != []
      requires Numbered(store.Tables(), e, |attempts|) && attempts == AttemptsOf(store.Tables(), e, |attempts|)
      requires AreDistinct(requests, attempts)
      ensures IsRequest(store.Tables(), Current(), e, stored) <==> stored in requests
    {
      hide Sound, IsListable, Nature.Lawful, IsBuilt;
      if stored in requests {
        var i :| 0 <= i < |requests| && requests[i] == stored;
        assert IsAmong(requests[i], attempts);
        var k :| 0 <= k < |attempts| && stored == StoredOf(attempts[k]);
        TidyRow(e, k + 1);
        assert StoredOf(store.attempts[(e, k + 1)]) == stored;
      }
      if k: nat :| (e, k) in store.attempts && StoredOf(store.attempts[(e, k)]) == stored {
        assert store.attempts[(e, k)] == attempts[k - 1];
      }
    }

    /** Write down a payment the evidence proves. */
    method Pay(e: string, signature: string, stored: Stored, landed: Option<nat>, paid: Reconciliation) returns (r: Try<()>)
      requires Valid() && e in store.events && store.events[e].status == IN_FLIGHT
      requires IsRequest(store.Tables(), Current(), e, stored)
      requires JudgedOn(network.nature.client, network.Now(), signature, stored, store.events[e].beneficiaryIds, Ok(paid))
      requires landed.Some? && (e, landed.value) in store.attempts ==> store.attempts[(e, landed.value)].raw.Some?
      modifies store
      ensures Valid() && Concerns(old(store.Tables()), store.Tables(), e)
      ensures store.Tables() == if r.Done? then PaidRecorded(old(store.Tables()), e, landed, paid) else old(store.Tables())
      ensures r.Done? ==> store.settlements == old(store.settlements) + [SettlementRow(e, paid.record)]
      ensures e in store.events
              && store.events[e] == old(store.events)[e].(status := if r.Done? then PAID else IN_FLIGHT)
      ensures store.Steady() ==> r.Done?
    {
      hide Sound, IsListable, Nature.Lawful, PaidRecorded, JudgedOn, Concerns, IsRequest;
      MayPay(e, signature, stored, landed, paid);
      SameAsBefore(store.Tables(), e);
      r := store.RecordPaid(e, landed, paid);
    }

    lemma MayPay(e: string, signature: string, stored: Stored, landed: Option<nat>, paid: Reconciliation)
      requires Valid() && e in store.events && store.events[e].status == IN_FLIGHT
      requires IsRequest(store.Tables(), Current(), e, stored)
      requires JudgedOn(network.nature.client, network.Now(), signature, stored, store.events[e].beneficiaryIds, Ok(paid))
      requires landed.Some? && (e, landed.value) in store.attempts ==> store.attempts[(e, landed.value)].raw.Some?
      ensures var after := PaidRecorded(store.Tables(), e, landed, paid);
              && Sound(Config(), Now().(db := after))
              && Concerns(store.Tables(), after, e)
              && after.settlements == store.settlements + [SettlementRow(e, paid.record)]
              && e in after.events && after.events[e] == store.events[e].(status := PAID)
    {
      TidyEvent(e);
      TimePasses(network.nature, network.now, network.now);
      hide Sound, IsListable, Nature.Lawful, PaidRecorded, JudgedOn, IsBooking, Proves, Concerns, ChainInv, Later,
        EventTidy, Numbered;
      var j := AcceptedIsProven(network.nature.client, network.Now(), signature, stored,
                                store.events[e].beneficiaryIds, paid);
      StoredRecord(e, stored, paid.record);
      hide IsRequest, StoredFor;
      PayKeeps(Config(), Now(), e, landed, paid, j);
      TidyTables();
      PaidRowsTidy(Config(), store.Tables(), e, landed, paid);
      PaidConcerns(store.Tables(), e, landed, paid);
    }

    lemma TidyTables()
      requires Valid()
      ensures Tidy(Config(), store.Tables())
    {}

    lemma StoredRecord(e: string, stored: Stored, record: SettlementRecord)
      requires e in store.events && IsRequest(store.Tables(), Current(), e, stored)
      requires record.namespace == stored.params.namespace && record.scale == stored.params.scale
      ensures StoredFor(store.Tables(), e, record)
    {}

    /** The creating transaction contradicts everything stored. */
    lemma IncidentFound(e: string, requests: seq<Stored>, landing: Landing, signature: string)
      requires network.Valid() && e in store.events && AreRequests(e, requests)
      requires forall k: nat :: (e, k) in store.attempts ==>
                 && store.attempts[(e, k)].params.namespace == namespace
                 && store.attempts[(e, k)].request == store.events[e].request
      requires IsLanded(network.Now(), landing, signature) && IsCreator(landing, signature, e)
      requires AllDiffer(network.nature.client, network.Now(), signature, requests, |requests|)
      ensures exists j, ns: Key :: 0 <= j < |network.Now().landed|
                && IsIncident(Config(), store.Tables(), network.Now().landed[j], e, ns)
    {
      hide ChainInv, Later, JudgedOn, IsMismatch, Contradicts, CreatesRecord, Nature.Lawful, Sound;
      TimePasses(network.nature, network.now, network.now);
      var j :| 0 <= j < |network.Now().landed| && network.Now().landed[j] == landing;
      forall stored | IsRequest(store.Tables(), Current(), e, stored)
        ensures Contradicts(network.nature.client, landing, stored.request, stored.params)
      {
        var i :| 0 <= i < |requests| && requests[i] == stored;
        assert IsDifferent(network.nature.client, network.Now(), signature, requests[i], map[]);
        var code :| IsMismatch(code) && JudgedOn(network.nature.client, network.Now(), signature, stored, map[], Err(code));
        MismatchContradicts(network.nature.client, network.Now(), j, signature, stored, code);
      }
      forall k: nat | (e, k) in store.attempts
        ensures Contradicts(network.nature.client, landing, store.events[e].request, store.attempts[(e, k)].params)
      {
        assert IsRequest(store.Tables(), Current(), e, StoredOf(store.attempts[(e, k)]));
      }
      if store.events[e].attempts == 0 {
        assert IsRequest(store.Tables(), Current(), e, Stored(store.events[e].request, Current()));
      }
      assert IsIncident(Config(), store.Tables(), network.Now().landed[j], e, namespace);
    }

    lemma RowsOf(e: string)
      requires Valid() && e in store.events
      ensures forall k: nat :: (e, k) in store.attempts ==> store.attempts[(e, k)].request == store.events[e].request
      ensures forall k: nat :: (e, k) in store.attempts ==>
                (store.attempts[(e, k)].signature.Some? ==> store.attempts[(e, k)].raw.Some?)
                && store.attempts[(e, k)].attempt == k
    {
      TidyEvent(e);
      hide Sound, IsListable, Nature.Lawful, IsBuilt;
      forall k: nat | (e, k) in store.attempts
        ensures RowTidy(network.nature.client, store.attempts[(e, k)], store.events[e], k)
      {
        TidyRow(e, k);
      }
    }

    /** Leave the event in flight, to be resolved again. */
    method Unresolved(e: string) returns (r: Try<Report>)
      requires Valid() && e in store.events && store.events[e].status == IN_FLIGHT
      modifies store
      ensures Valid() && Concerns(old(store.Tables()), store.Tables(), e)
      ensures store.Tables() == old(store.Tables()) && e in store.events
      ensures r.Done? ==> r.value == UNRESOLVED
      ensures store.Steady() ==> r.Done?
    {
      hide Sound, IsListable, Nature.Lawful;
      var _ :- Mark(e, IN_FLIGHT);
      return Done(UNRESOLVED);
    }

    /** The stored request that agreed with the evidence is confirmed elsewhere, and paid. */
    method ConfirmAndPay(e: string, signature: string, stored: Stored, attempts: seq<StoredAttempt>, ghost landing: Landing)
      returns (r: Try<Report>)
      requires Valid() && e in store.events && store.events[e].status == IN_FLIGHT
      requires IsRequest(store.Tables(), Current(), e, stored)
      requires Numbered(store.Tables(), e, |attempts|) && attempts == AttemptsOf(store.Tables(), e, |attempts|)
      requires IsLanded(network.Now(), landing, signature)
      modifies store, network
      ensures Valid() && network.Passes() && Concerns(old(store.Tables()), store.Tables(), e)
      ensures e in store.events && store.events[e] == old(store.events)[e].(status := store.events[e].status)
      ensures r.Done? ==> store.events[e].status == Told(r.value)
      ensures store.Steady() ==> !r.Threw?
      ensures StaysHealthy()
      ensures r.Done? ==> r.value == UNRESOLVED || r.value == Decided(PAID)
      ensures r == Done(UNRESOLVED) ==> store.Tables() == old(store.Tables())
      ensures IsLanded(network.Now(), landing, signature)
      ensures old(Healthy()) && AgreesWith(network.nature.client, landing, stored) ==>
                r == Done(if NamesBeneficiaries(old(store.events)[e].beneficiaryIds) then Decided(PAID) else UNRESOLVED)
      ensures r == Done(Decided(PAID)) ==>
                exists paid ::
                  && store.Tables() == PaidRecorded(old(store.Tables()), e, LandedAttempt(attempts, signature), paid)
                  && ToldSo(network.nature.client, network.told, |old(network.told)|, Primary, signature, stored,
                            old(store.events)[e].beneficiaryIds, Ok(paid))
      ensures r == Done(Decided(PAID)) && second ==>
                ToldAgreement(network.nature.client, network.told, |old(network.told)|, Second, signature, stored)
    {
      hide Sound, IsListable, Nature.Lawful, Nature.Prompt, JudgedOn, Concerns, AttemptsOf, PaidRecorded, TruthOf,
        IsLanded, IsRequest, NamesBeneficiaries, ToldSo;
      SameAsBefore(store.Tables(), e);
      IdsOnlyLabel(network.nature.client, landing, stored, store.events[e].beneficiaryIds);
      if second {
        var other :- Reconcile(Second, signature, stored, map[], landing);
        if !other.Agrees? {
          r := Unresolved(e);
          return;
        }
      }
      ghost var told := network.told;
      var rows :- Reconcile(Primary, signature, stored, store.events[e].beneficiaryIds, landing);
      if !rows.Agrees? {
        r := Unresolved(e);
        return;
      }
      ghost var client, from := network.nature.client, |old(network.told)|;
      StillTold(client, told, network.told, from, from, Second, signature, stored);
      StillTold(client, network.told, network.told, |told|, from, Primary, signature, stored);
      var landed := LandedAttempt(attempts, signature);
      LandedHasBytes(e, attempts, signature);
      var _ :- Pay(e, signature, stored, landed, rows.reconciliation);
      return Done(Decided(PAID));
    }

    lemma LandedHasBytes(e: string, attempts: seq<StoredAttempt>, signature: string)
      requires Valid() && e in store.events
      requires Numbered(store.Tables(), e, |attempts|) && attempts == AttemptsOf(store.Tables(), e, |attempts|)
      ensures var landed := LandedAttempt(attempts, signature);
              landed.Some? && (e, landed.value) in store.attempts ==> store.attempts[(e, landed.value)].raw.Some?
    {
      hide Sound, IsListable, Nature.Lawful, LandedAttempt, IsBuilt;
      var landed := LandedAttempt(attempts, signature);
      if landed.Some? {
        var i :| 0 <= i < |attempts| && attempts[i].signature == Some(signature) && attempts[i].attempt == landed.value;
        hide Numbered, AttemptsOf;
        RowAt(e, attempts, i);
        TidyRow(e, i + 1);
      }
    }

    lemma RowAt(e: string, attempts: seq<StoredAttempt>, i: nat)
      requires Numbered(store.Tables(), e, |attempts|) && attempts == AttemptsOf(store.Tables(), e, |attempts|)
      requires i < |attempts|
      ensures (e, i + 1) in store.attempts && store.attempts[(e, i + 1)] == attempts[i]
    {}

    /** The landing created the event's record, and each provider told of it what the report rests on. */
    ghost predicate ToldOf(landing: Landing, from: nat, e: string, report: Report)
      requires e in store.events
      reads store, network
    {
      var client, signature := network.nature.client, landing.tx.signature;
      && IsLanded(network.Now(), landing, signature) && IsCreator(landing, signature, e)
      && (report == Decided(INCIDENT) ==>
            AccusedBy(client, network.told, from, second, signature, Current(), store.Tables(), e))
      && (report == Decided(PAID) ==>
            ConfirmedBy(client, network.told, from, second, signature, Current(), store.Tables(), e))
    }

    lemma LeftSo(before: Db, e: string, attempts: seq<StoredAttempt>, signature: string, report: Report)
      requires e in before.events
      requires if report == Decided(PAID)
               then exists paid :: store.Tables() == PaidRecorded(before, e, LandedAttempt(attempts, signature), paid)
               else || store.Tables() == WithStatus(before, e, Told(report))
                    || (store.Tables() == before && before.events[e].status == Told(report))
      ensures Leaves(before, store.Tables(), e, report)
    {
      hide WithSettlement, WithEntries, WithPools, LandedAttempt;
      if report == Decided(PAID) {
        var landed := LandedAttempt(attempts, signature);
        var paid :| store.Tables() == PaidRecorded(before, e, landed, paid);
        assert store.Tables() == PaidRecorded(before, e, landed, paid).(attempts := store.attempts);
      }
    }

    lemma ToldPaid(landing: Landing, from: nat, told: seq<Telling>, before: Db, e: string, stored: Stored, report: Report)
      requires e in before.events && SameButStatus(store.Tables(), before, e) && Concerns(before, store.Tables(), e)
      requires IsLanded(network.Now(), landing, landing.tx.signature) && IsCreator(landing, landing.tx.signature, e)
      requires IsRequest(before, Current(), e, stored) && from <= |told| && told <= network.told
      requires ToldAgreement(network.nature.client, told, from, Primary, landing.tx.signature, stored)
      requires second && report == Decided(PAID) ==>
                 ToldAgreement(network.nature.client, network.told, |told|, Second, landing.tx.signature, stored)
      requires report == UNRESOLVED || report == Decided(PAID)
      ensures ToldOf(landing, from, e, report)
    {
      hide IsLanded, IsCreator, IsRequest, ToldAgreement, ToldMismatch, Concerns, ConfirmedBy, AccusedBy;
      var client, signature := network.nature.client, landing.tx.signature;
      StillTold(client, told, network.told, from, from, Primary, signature, stored);
      StillTold(client, network.told, network.told, |told|, from, Second, signature, stored);
      if report == Decided(PAID) {
        StoredConfirmed(client, network.told, from, second, signature, Current(), before, store.Tables(), e, stored);
      }
    }

    lemma ToldAccused(landing: Landing, from: nat, told: seq<Telling>, before: Db, e: string, requests: seq<Stored>,
                      report: Report)
      requires e in before.events && SameButStatus(store.Tables(), before, e) && store.attempts == before.attempts
      requires IsLanded(network.Now(), landing, landing.tx.signature) && IsCreator(landing, landing.tx.signature, e)
      requires forall stored :: IsRequest(before, Current(), e, stored) <==> stored in requests
      requires from <= |told| && told <= network.told
      requires ToldMismatches(network.nature.client, told, from, Primary, landing.tx.signature, requests, |requests|)
      requires second && report == Decided(INCIDENT) ==>
                 ToldMismatches(network.nature.client, network.told, |told|, Second, landing.tx.signature, requests, |requests|)
      requires report == UNRESOLVED || report == Decided(INCIDENT)
      ensures ToldOf(landing, from, e, report)
    {
      hide IsLanded, IsCreator, IsRequest, ToldMismatches, ConfirmedBy, AccusedBy;
      var client, signature := network.nature.client, landing.tx.signature;
      StillToldAll(client, told, network.told, from, from, Primary, signature, requests, |requests|);
      if report == Decided(INCIDENT) {
        if second {
          StillToldAll(client, network.told, network.told, |told|, from, Second, signature, requests, |requests|);
        }
        ListedAccused(client, network.told, from, second, signature, Current(), before, store.Tables(), e, requests);
      }
    }

    /** Pay, accuse or leave it, by how the stored requests fared on the primary. */
    method Weigh(e: string, signature: string, requests: seq<Stored>, matched: Option<nat>, mismatched: bool,
                 attempts: seq<StoredAttempt>, ghost landing: Landing, ghost from: nat) returns (r: Try<Report>)
      requires Valid() && e in store.events && store.events[e].status == IN_FLIGHT && AreRequests(e, requests)
      requires Numbered(store.Tables(), e, |attempts|) && attempts == AttemptsOf(store.Tables(), e, |attempts|)
      requires forall k: nat :: (e, k) in store.attempts ==> store.attempts[(e, k)].params.namespace == namespace
      requires IsLanded(network.Now(), landing, signature) && IsCreator(landing, signature, e) && from <= |network.told|
      requires matched.Some? ==>
                 && matched.value < |requests|
                 && ToldAgreement(network.nature.client, network.told, from, Primary, signature, requests[matched.value])
      requires mismatched ==>
                 && AllDiffer(network.nature.client, network.Now(), signature, requests, |requests|)
                 && ToldMismatches(network.nature.client, network.told, from, Primary, signature, requests, |requests|)
      modifies store, network
      ensures Valid() && network.Passes() && Concerns(old(store.Tables()), store.Tables(), e)
      ensures e in store.events && store.events[e] == old(store.events)[e].(status := store.events[e].status)
      ensures r.Done? ==> store.events[e].status == Told(r.value)
      ensures store.Steady() ==> !r.Threw?
      ensures StaysHealthy()
      ensures r.Done? ==> r.value == UNRESOLVED || r.value == Decided(PAID) || r.value == Decided(INCIDENT)
      ensures r.Done? ==> Leaves(old(store.Tables()), store.Tables(), e, r.value)
      ensures r == Done(Decided(PAID)) ==>
                exists paid :: store.Tables() == PaidRecorded(old(store.Tables()), e, LandedAttempt(attempts, signature), paid)
      ensures r.Done? && r.value != UNRESOLVED ==> ToldOf(landing, from, e, r.value)
      ensures old(Healthy()) ==>
                && (matched.Some? && AgreesWith(network.nature.client, landing, requests[matched.value]) ==>
                      r == Done(if NamesBeneficiaries(old(store.events)[e].beneficiaryIds) then Decided(PAID) else UNRESOLVED))
                && (matched.None? && mismatched && AllMismatch(network.nature.client, landing, requests) ==>
                      r == Done(Decided(INCIDENT)))
                && (matched.None? && !mismatched ==> r == Done(UNRESOLVED))
    {
      hide Sound, IsListable, Nature.Lawful, Nature.Prompt, Concerns, AttemptsOf, Numbered, AllDiffer, IsCreator,
        IsIncident, IsAgreed, IsRequest, IsLanded, Tallied, TruthOf, NamesBeneficiaries, ToldSo, ToldAgreement,
        ToldMismatches, AllMismatch, PaidRecorded, WithStatus, ToldOf, Leaves;
      SameAsBefore(store.Tables(), e);
      NamedBy(landing, signature, e);
      ghost var before, told := store.Tables(), network.told;
      if matched.Some? {
        assert requests[matched.value] in requests;
        r := ConfirmAndPay(e, signature, requests[matched.value], attempts, landing);
        if r.Done? {
          LeftSo(before, e, attempts, signature, r.value);
          ToldPaid(landing, from, told, before, e, requests[matched.value], r.value);
        }
      } else if mismatched {
        r := Accuse(e, signature, requests, landing);
        if r.Done? {
          LeftSo(before, e, attempts, signature, r.value);
          ToldAccused(landing, from, told, before, e, requests, r.value);
        }
      } else {
        r := Unresolved(e);
        if r.Done? {
          LeftSo(before, e, attempts, signature, r.value);
        }
      }
    }

    lemma NamedBy(landing: Landing, signature: string, e: string)
      requires IsCreator(landing, signature, e)
      ensures landing.tx.signature == signature
    {}

    /** Compare the creating transaction with everything stored for the event. */
    method Compare(e: string, signature: string, attempts: seq<StoredAttempt>, ghost landing: Landing)
      returns (r: Try<Report>)
      requires Valid() && e in store.events && store.events[e].status == IN_FLIGHT && |attempts| == store.events[e].attempts
      requires Numbered(store.Tables(), e, |attempts|) && attempts == AttemptsOf(store.Tables(), e, |attempts|)
      requires forall k: nat :: (e, k) in store.attempts ==> store.attempts[(e, k)].params.namespace == namespace
      requires IsLanded(network.Now(), landing, signature) && IsCreator(landing, signature, e)
      modifies store, network
      ensures Valid() && network.Passes() && Concerns(old(store.Tables()), store.Tables(), e)
      ensures e in store.events && store.events[e] == old(store.events)[e].(status := store.events[e].status)
      ensures r.Done? ==> store.events[e].status == Told(r.value)
      ensures store.Steady() ==> !r.Threw?
      ensures StaysHealthy()
      ensures r.Done? ==> r.value == UNRESOLVED || r.value == Decided(PAID) || r.value == Decided(INCIDENT)
      ensures r.Done? ==> Leaves(old(store.Tables()), store.Tables(), e, r.value)
      ensures r == Done(Decided(PAID)) ==>
                exists paid :: store.Tables() == PaidRecorded(old(store.Tables()), e, LandedAttempt(attempts, signature), paid)
      ensures r.Done? && r.value != UNRESOLVED ==> ToldOf(landing, |old(network.told)|, e, r.value)
      ensures old(Healthy()) ==> r.Done? && Chosen(network.nature.client, Current(), old(store.Tables()), e, landing, r)
    {
      hide Sound, IsListable, Nature.Lawful, Nature.Prompt, Concerns, AttemptsOf, Numbered, AllDiffer, IsCreator,
        IsIncident, IsAgreed, IsRequest, IsLanded, Tallied, TruthOf, NamesBeneficiaries, Chosen, ToldAgreement,
        ToldMismatches, PaidRecorded, ToldOf, WithStatus, AllMismatch, Leaves, AgreesWith;
      SameAsBefore(store.Tables(), e);
      var requests := Requests(e, attempts);
      var primary :- JudgeAll(Primary, signature, requests, landing);
      r := Weigh(e, signature, requests, primary.0, primary.1, attempts, landing, |old(network.told)|);
      if old(Healthy()) {
        TalliedSays(network.nature.client, landing, requests, primary.0, primary.1);
        TalliedDecides(network.nature.client, Current(), old(store.Tables()), e, landing, requests, primary.0, primary.1, r);
      }
    }

    /** Whether the second provider, when there is one, sees every stored request mismatch too. */
    method AlsoDiffers(signature: string, requests: seq<Stored>, ghost landing: Landing) returns (r: Try<bool>)
      requires Valid() && AllDiffer(network.nature.client, network.Now(), signature, requests, |requests|)
      requires IsLanded(network.Now(), landing, signature)
      modifies network
      ensures Valid() && network.Passes()
      ensures AllDiffer(network.nature.client, network.Now(), signature, requests, |requests|)
      ensures IsLanded(network.Now(), landing, signature)
      ensures r == Done(true) && second ==>
                ToldMismatches(network.nature.client, network.told, |old(network.told)|, Second, signature, requests,
                               |requests|)
      ensures StaysHealthy() && !r.Threw?
      ensures old(Healthy()) && AllMismatch(network.nature.client, landing, requests) ==> r == Done(true)
    {
      hide Sound, IsListable, Nature.Lawful, Nature.Prompt, AllDiffer, IsAgreed, FoundLater, IsLanded, TruthOf,
        ToldMismatches, ToldAgreement;
      ghost var t := network.now;
      if !second {
        return Done(true);
      }
      var other := JudgeAll(Second, signature, requests, landing);
      StillFound(t, signature, requests, |requests|);
      StillFoundBy(network.nature.client, network.nature.timeline(t), network.Now(), signature, requests, |requests|, None);
      var judged :- other;
      return Done(judged.1);
    }

    /** Everything stored mismatches on the primary: an incident, if the second provider sees it too. */
    method Accuse(e: string, signature: string, requests: seq<Stored>, ghost landing: Landing) returns (r: Try<Report>)
      requires Valid() && e in store.events && store.events[e].status == IN_FLIGHT && AreRequests(e, requests)
      requires forall k: nat :: (e, k) in store.attempts ==> store.attempts[(e, k)].params.namespace == namespace
      requires IsLanded(network.Now(), landing, signature) && IsCreator(landing, signature, e)
      requires AllDiffer(network.nature.client, network.Now(), signature, requests, |requests|)
      modifies store, network
      ensures Valid() && network.Passes() && Concerns(old(store.Tables()), store.Tables(), e)
      ensures e in store.events && store.events[e] == old(store.events)[e].(status := store.events[e].status)
      ensures r.Done? ==> store.events[e].status == Told(r.value)
      ensures store.Steady() ==> !r.Threw?
      ensures StaysHealthy()
      ensures r.Done? ==> r.value == UNRESOLVED || r.value == Decided(INCIDENT)
      ensures r.Done? ==> store.Tables() == WithStatus(old(store.Tables()), e, Told(r.value))
      ensures store.attempts == old(store.attempts) && IsLanded(network.Now(), landing, signature)
      ensures r == Done(Decided(INCIDENT)) && second ==>
                ToldMismatches(network.nature.client, network.told, |old(network.told)|, Second, signature, requests,
                               |requests|)
      ensures old(Healthy()) && AllMismatch(network.nature.client, landing, requests) ==> r == Done(Decided(INCIDENT))
    {
      hide Sound, IsListable, Nature.Lawful, Nature.Prompt, Concerns, AllDiffer, IsCreator, IsIncident, AreRequests,
        AllMismatch, IsLanded, ToldMismatches;
      SameAsBefore(store.Tables(), e);
      var confirmed :- AlsoDiffers(signature, requests, landing);
      if !confirmed {
        r := Unresolved(e);
        return;
      }
      RowsOf(e);
      IncidentFound(e, requests, landing, signature);
      var _ :- Mark(e, INCIDENT);
      return Done(Decided(INCIDENT));
    }

    /** A payment or an incident rests on what each provider told, since then, of the transaction that made the record. */
    ghost predicate RestsOnTold(from: nat, e: string, r: Try<Report>)
      reads store, network
    {
      r == Done(Decided(PAID)) || r == Done(Decided(INCIDENT)) ==>
        e in store.events && exists landing :: ToldOf(landing, from, e, r.value)
    }

    lemma ToldSince(landing: Landing, from: nat, since: nat, e: string, report: Report)
      requires e in store.events && since <= from && ToldOf(landing, from, e, report)
      ensures ToldOf(landing, since, e, report)
    {
      hide IsLanded, IsCreator, AccusedBy, ConfirmedBy;
      ToldBefore(network.nature.client, network.told, from, since, second, landing.tx.signature, Current(), store.Tables(), e);
    }

    lemma StillRests(from: nat, since: nat, e: string, r: Try<Report>)
      requires since <= from && RestsOnTold(from, e, r)
      ensures RestsOnTold(since, e, r)
    {
      hide ToldOf;
      if r == Done(Decided(PAID)) || r == Done(Decided(INCIDENT)) {
        var landing :| ToldOf(landing, from, e, r.value);
        ToldSince(landing, from, since, e, r.value);
      }
    }

    lemma LeftAlone(before: Db, e: string)
      requires store.Tables() == before && (e in before.events ==> before.events[e].status == IN_FLIGHT)
      ensures Leaves(before, store.Tables(), e, UNRESOLVED) && Leaves(before, store.Tables(), e, WAITING)
    {}

    /** The record exists: find its creating transaction, and decide by it. */
    method ResolveRecord(e: string, attempts: seq<StoredAttempt>) returns (r: Try<Report>)
      requires Valid() && e in store.events && store.events[e].status == IN_FLIGHT && |attempts| == store.events[e].attempts
      requires Numbered(store.Tables(), e, |attempts|) && attempts == AttemptsOf(store.Tables(), e, |attempts|)
      requires forall k: nat :: (e, k) in store.attempts ==> store.attempts[(e, k)].params.namespace == namespace
      modifies store, network
      ensures Valid() && network.Passes() && Concerns(old(store.Tables()), store.Tables(), e)
      ensures e in store.events && store.events[e] == old(store.events)[e].(status := store.events[e].status)
      ensures r.Done? ==> store.events[e].status == Told(r.value)
      ensures store.Steady() ==> !r.Threw?
      ensures StaysHealthy()
      ensures r.Done? ==> r.value == UNRESOLVED || r.value == Decided(PAID) || r.value == Decided(INCIDENT)
      ensures r.Done? ==> Leaves(old(store.Tables()), store.Tables(), e, r.value)
      ensures RestsOnTold(|old(network.told)|, e, r)
      ensures old(Healthy()) ==> r.Done? && ByCreator(old(network.now), old(store.Tables()), e, r)
    {
      hide Sound, IsListable, Nature.Lawful, Nature.Prompt, Concerns, AttemptsOf, Numbered, IsCreator, Chosen, IsLanded,
        CreatesRecord, NoCollision, CompleteHistory, Reliable, IsDecoy, IsTopLevel, RecordAsOf, Leaves, ToldOf;
      SameAsBefore(store.Tables(), e);
      var created := FindSettlement(e);
      if created.Crashed? {
        return Crashed;
      }
      if created.Threw? || !created.value.topLevel {
        r := Unresolved(e);
        LeftAlone(old(store.Tables()), e);
        return;
      }
      ghost var landing := Creator(created.value.signature, e);
      if old(Healthy()) {
        forall j: nat | Traceable(network.now, e, j)
          ensures j < |network.Now().landed| && network.Now().landed[j] == landing && IsTopLevel(network.now, e, j)
        {}
      }
      ghost var told := |network.told|;
      r := Compare(e, created.value.signature, attempts, landing);
      if r.Done? && r.value != UNRESOLVED {
        ToldSince(landing, told, |old(network.told)|, e, r.value);
      }
    }

    /** The landing the finder found; by its signature there is no other. */
    lemma Creator(signature: string, e: string) returns (landing: Landing)
      requires network.Valid()
      requires exists k :: 0 <= k < |network.Now().landed| && IsCreator(network.Now().landed[k], signature, e)
      ensures IsLanded(network.Now(), landing, signature) && IsCreator(landing, signature, e)
      ensures forall j: nat :: j < |network.Now().landed| && network.Now().landed[j].tx.signature == signature ==>
                network.Now().landed[j] == landing
    {
      TimePasses(network.nature, network.now, network.now);
      hide CreatesRecord, Later;
      var k :| 0 <= k < |network.Now().landed| && IsCreator(network.Now().landed[k], signature, e);
      landing := network.Now().landed[k];
    }

    /**
      Without fault, a record whose creating transaction can be traced is judged
      by that transaction, or left to a person if another program made it.
     */
    ghost predicate ByCreator(n: nat, db: Db, e: string, r: Try<Report>)
      requires e in db.events
    {
      forall j: nat :: Traceable(n, e, j) ==>
        if IsTopLevel(n, e, j)
        then Chosen(network.nature.client, Current(), db, e, network.nature.timeline(n).landed[j], r)
        else RecordAsOf(n, e) == Done(true) ==> r == Done(UNRESOLVED)
    }

    // ----- Resolving -----

    /** Whether an attempt was made in another namespace or program, whose records this worker does not read. */
    predicate IsElsewhere(attempt: StoredAttempt) {
      attempt.params.programId != network.nature.client.env.programId || attempt.params.namespace != namespace
    }

    /** As each provider there is last saw the cluster, the event has no record. */
    ghost predicate SeenMissing(e: string)
      reads network
    {
      RecordAsOf(network.seenPrimary, e) == Done(false) && (second ==> RecordAsOf(network.seenSecond, e) == Done(false))
    }

    /** Whether a record is missing, confirmed by the second provider when there is one; `None` when undecided. */
    method NoRecord(e: string) returns (r: Try<Option<bool>>)
      requires Valid()
      modifies network
      ensures Valid() && network.Passes() && network.forwarded == old(network.forwarded)
      ensures r == Done(Some(true)) ==>
                exists t: nat :: old(network.Seen(Primary)) <= t <= network.now && !RecordAt(t, e)
      ensures r == Done(Some(true)) ==> SeenMissing(e)
      ensures r == Done(Some(false)) ==> RecordAsOf(network.seenPrimary, e) == Done(true)
      ensures !r.Threw?
      ensures StaysHealthy()
      ensures old(Healthy()) ==>
                var record := RecordAsOf(network.now, e);
                r == Done(if record.Done? then Some(!record.value) else None)
    {
      hide Sound, IsListable, Nature.Lawful, RecordExists;
      var record := FetchRecord(Primary, e);
      ghost var t := network.Seen(Primary);
      if record.Crashed? {
        return Crashed;
      }
      if record.Threw? {
        return Done(None);
      }
      if record.value {
        return Done(Some(false));
      }
      assert !RecordAt(t, e);
      if second {
        var other := FetchRecord(Second, e);
        if other.Crashed? {
          return Crashed;
        }
        if other.Threw? || other.value {
          return Done(None);
        }
      }
      return Done(Some(true));
    }

    ghost predicate RecordAt(t: nat, e: string) {
      RecordExists(network.nature.client.env, network.nature.timeline(t), namespace, network.nature.client.eventSeed(e))
    }

    /** Some attempt of the event was made elsewhere. */
    ghost predicate AnyElsewhere(db: Db, e: string) {
      exists k: nat :: (e, k) in db.attempts && IsElsewhere(db.attempts[(e, k)])
    }

    /** Some signed attempt of the event is still to land, as of moment `n`. */
    ghost predicate AnyMayLand(n: nat, db: Db, e: string) {
      exists k: nat :: (e, k) in db.attempts && MayLand(network.nature.timeline(n), db.attempts[(e, k)])
    }

    /**
      What resolving an event comes to without fault: one attempted elsewhere
      goes to a person, one with an attempt still to land waits, and any other
      is decided by its record.
     */
    ghost predicate ChainDecides(n: nat, db: Db, e: string, r: Try<Report>)
      requires e in db.events
    {
      if AnyElsewhere(db, e) then r == Done(Decided(NEEDS_ATTENTION))
      else if AnyMayLand(n, db, e) then r == Done(WAITING)
      else RecordDecides(n, db, e, r)
    }

    /**
      Without a record the event is tried again, up to the cap; what reads as
      neither a record nor none decides nothing; and a record is judged by the
      transaction that created it.
     */
    ghost predicate RecordDecides(n: nat, db: Db, e: string, r: Try<Report>)
      requires e in db.events
    {
      var record := RecordAsOf(n, e);
      && r.Done? && r != Done(WAITING)
      && (record == Done(false) ==>
            r == Done(if db.events[e].attempts >= maxAttempts then Decided(NEEDS_ATTENTION) else RETRY))
      && (record == Threw ==> r == Done(UNRESOLVED))
      && ByCreator(n, db, e, r)
    }

    /** What the attempts read say is what the tables say. */
    lemma AttemptsSay(n: nat, e: string, attempts: seq<StoredAttempt>)
      requires Numbered(store.Tables(), e, |attempts|) && attempts == AttemptsOf(store.Tables(), e, |attempts|)
      ensures AnyElsewhere(store.Tables(), e) <==> exists i :: 0 <= i < |attempts| && IsElsewhere(attempts[i])
      ensures AnyMayLand(n, store.Tables(), e) <==>
                exists i :: 0 <= i < |attempts| && MayLand(network.nature.timeline(n), attempts[i])
    {
      hide IsElsewhere, MayLand;
      forall k: nat | (e, k) in store.attempts
        ensures 1 <= k <= |attempts| && store.attempts[(e, k)] == attempts[k - 1]
      {}
      forall i | 0 <= i < |attempts|
        ensures (e, i + 1) in store.attempts && store.attempts[(e, i + 1)] == attempts[i]
      {}
    }

    lemma ElsewhereDecides(n: nat, db: Db, e: string)
      requires e in db.events && AnyElsewhere(db, e)
      ensures ChainDecides(n, db, e, Done(Decided(NEEDS_ATTENTION)))
    {}

    /**
      Decide an in-flight event from the chain. Whatever fails on the way, the
      report says what the tables hold; when nothing fails, the chain decides.
     */
    method Resolve(e: string) returns (r: Try<Report>)
      requires Valid()
      modifies store, network
      ensures Valid() && network.Passes() && Concerns(old(store.Tables()), store.Tables(), e)
      ensures e in old(store.events) ==> SameButStatus(store.Tables(), old(store.Tables()), e)
      ensures r.Done? ==> e in store.events && store.events[e].status == Told(r.value)
      ensures store.Steady() && e in old(store.events) && old(store.events)[e].status == IN_FLIGHT && e != "" ==> !r.Threw?
      ensures StaysHealthy()
      ensures old(Healthy()) ==> !r.Crashed?
      ensures old(Healthy() && e in store.events && store.events[e].status == IN_FLIGHT) && e != "" ==>
                ChainDecides(old(network.now), old(store.Tables()), e, r)
      ensures old(Healthy()) && r == Done(WAITING) ==>
                OnlyFailedClosed(old(store.Tables()), store.Tables(), network.Now(), e)
      ensures old(Healthy()) && r == Done(WAITING) ==> ResentFrom(|old(network.sends)|, e)
      ensures r != Done(REFUSED) && (r.Done? ==> Leaves(old(store.Tables()), store.Tables(), e, r.value))
      ensures r == Done(RETRY) ==> SeenMissing(e)
      ensures r == Done(Decided(NEEDS_ATTENTION)) ==> AnyElsewhere(old(store.Tables()), e) || SeenMissing(e)
      ensures RestsOnTold(|old(network.told)|, e, r)
    {
      hide Sound, IsListable, Nature.Lawful, Nature.Prompt, Concerns, AttemptsOf, Numbered, EventTidy, ClosedSome, Spent,
        DeadRows, MayLand, IsElsewhere, RecordDecides, AnyMayLand, AnyElsewhere, OnlyFailedClosed, AllClosed, WithStatus,
        Leaves, AllResent, ToldOf, SeenMissing, ChainDecides;
      SameAsBefore(store.Tables(), e);
      var found :- store.Event(e);
      if found.None? || found.value.status != IN_FLIGHT {
        return Threw;
      }
      TidyEvent(e);
      var attempts :- store.Attempts(e, found.value.attempts);
      AttemptsSay(network.now, e, attempts);
      if exists i :: 0 <= i < |attempts| && IsElsewhere(attempts[i]) {
        var _ :- Mark(e, NEEDS_ATTENTION);
        ElsewhereDecides(network.now, old(store.Tables()), e);
        LeftMarked(old(store.Tables()), e, NEEDS_ATTENTION);
        return Done(Decided(NEEDS_ATTENTION));
      }
      r := ResolveHere(e, attempts);
    }

    lemma LeftMarked(before: Db, e: string, status: EventStatus)
      requires store.Tables() == WithStatus(before, e, status) && status != PAID
      ensures forall report :: Told(report) == status ==> Leaves(before, store.Tables(), e, report)
    {}

    /** Resolve an event all of whose attempts were made here. */
    method ResolveHere(e: string, attempts: seq<StoredAttempt>) returns (r: Try<Report>)
      requires Valid() && e in store.events && store.events[e].status == IN_FLIGHT && |attempts| == store.events[e].attempts
      requires Numbered(store.Tables(), e, |attempts|) && attempts == AttemptsOf(store.Tables(), e, |attempts|)
      requires !exists i :: 0 <= i < |attempts| && IsElsewhere(attempts[i])
      modifies store, network
      ensures Valid() && network.Passes() && Concerns(old(store.Tables()), store.Tables(), e)
      ensures SameButStatus(store.Tables(), old(store.Tables()), e)
      ensures r.Done? ==> e in store.events && store.events[e].status == Told(r.value)
      ensures store.Steady() && e != "" ==> !r.Threw?
      ensures StaysHealthy()
      ensures old(Healthy()) ==> !r.Crashed?
      ensures old(Healthy()) && e != "" ==> ChainDecides(old(network.now), old(store.Tables()), e, r)
      ensures old(Healthy()) && r == Done(WAITING) ==>
                OnlyFailedClosed(old(store.Tables()), store.Tables(), network.Now(), e)
      ensures old(Healthy()) && r == Done(WAITING) ==> ResentFrom(|old(network.sends)|, e)
      ensures r != Done(REFUSED) && (r.Done? ==> Leaves(old(store.Tables()), store.Tables(), e, r.value))
      ensures r == Done(RETRY) || r == Done(Decided(NEEDS_ATTENTION)) ==> SeenMissing(e)
      ensures RestsOnTold(|old(network.told)|, e, r)
    {
      hide Sound, IsListable, Nature.Lawful, Nature.Prompt, Concerns, AttemptsOf, Numbered, ClosedSome, Spent, MayLand,
        IsElsewhere, AnyMayLand, AnyElsewhere, RecordDecides, ClosedFailed, OnlyFailedClosed, Leaves, AllResent, ToldOf,
        AllHanded, SeenMissing;
      SameAsBefore(store.Tables(), e);
      AttemptsSay(network.now, e, attempts);
      var may := MayStillLand(e, attempts);
      ghost var tables := store.Tables();
      if may.Crashed? {
        return Crashed;
      }
      if may.Threw? {
        r := Unresolved(e);
        LeftAlone(tables, e);
        StillLeaves(old(store.Tables()), tables, e, r);
        SameTwice(old(store.Tables()), tables, store.Tables(), e);
        return;
      }
      if may.value {
        LeftAlone(tables, e);
        LeavesAlike(old(store.Tables()), tables, store.Tables(), e, WAITING);
        if old(Healthy()) {
          CheckedAreResent(store.Tables(), network.Now(), e, attempts, network.forwarded,
                           network.sends[|old(network.sends)|..]);
          CheckedOnlyCloses(old(store.Tables()), store.Tables(), network.Now(), e, attempts);
        }
        return Done(WAITING);
      }
      RowsHere(e, attempts);
      RowsClosed(e, attempts);
      ghost var told := |network.told|;
      r := ByRecord(e, |attempts|);
      StillRests(told, |old(network.told)|, e, r);
      StillLeaves(old(store.Tables()), tables, e, r);
      SameTwice(old(store.Tables()), tables, store.Tables(), e);
      SameChoice(old(network.now), old(store.Tables()), tables, e, |attempts|, r);
    }

    lemma StillLeaves(before: Db, middle: Db, e: string, r: Try<Report>)
      requires middle == before.(attempts := middle.attempts)
      requires r.Done? ==> Leaves(middle, store.Tables(), e, r.value)
      ensures r.Done? ==> Leaves(before, store.Tables(), e, r.value)
    {
      hide Leaves;
      if r.Done? {
        LeavesAlike(before, middle, store.Tables(), e, r.value);
      }
    }

    /** Every attempt of the event that may still land was sent again since then. */
    ghost predicate ResentFrom(from: nat, e: string)
      reads store, network
    {
      from <= |network.sends|
      && AllResent(network.Now(), store.Tables(), e, network.forwarded, network.sends[from..])
    }

    lemma StillResent(from: nat, since: nat, e: string)
      requires since <= from && ResentFrom(from, e)
      ensures ResentFrom(since, e)
    {
      hide AllResent;
      ResentSince(network.Now(), store.Tables(), e, network.forwarded, network.sends, from, since);
    }

    /** After the check the attempts are numbered as before. */
    lemma RowsClosed(e: string, attempts: seq<StoredAttempt>)
      requires ClosedSome(store.Tables(), e, attempts, |attempts|)
      ensures Numbered(store.Tables(), e, |attempts|)
    {}

    /** Closing attempts does not change what the creating transaction decides. */
    lemma SameChoice(n: nat, before: Db, after: Db, e: string, attempts: nat, r: Try<Report>)
      requires e in before.events && Concerns(before, after, e) && SameButStatus(after, before, e)
      requires Numbered(before, e, attempts) && Numbered(after, e, attempts)
      ensures RecordDecides(n, after, e, r) <==> RecordDecides(n, before, e, r)
    {
      hide Traceable, IsTopLevel, RecordAsOf, IsRequest, AgreesWith, MismatchesWith, Concerns, Numbered;
      SameRequests(before, after, Current(), e, attempts);
    }

    /** No attempt could land, and later no record was there: nothing did, and nothing will. */
    method WithoutRecord(e: string, n: nat, ghost s: nat) returns (r: Try<Report>)
      requires Valid() && e in store.events && store.events[e].status == IN_FLIGHT && store.events[e].attempts == n
      requires Spent(store.Tables(), network.nature.timeline(s), e, n)
      requires forall k: nat :: (e, k) in store.attempts ==> store.attempts[(e, k)].params.namespace == namespace
      requires exists t: nat :: s <= t <= network.now && !RecordAt(t, e)
      modifies store
      ensures Valid() && Concerns(old(store.Tables()), store.Tables(), e)
      ensures e in store.events && store.events[e] == old(store.events)[e].(status := store.events[e].status)
      ensures r.Done? ==> store.events[e].status == Told(r.value)
      ensures r.Done? ==> r.value == if n >= maxAttempts then Decided(NEEDS_ATTENTION) else RETRY
      ensures r.Done? ==> Leaves(old(store.Tables()), store.Tables(), e, r.value)
      ensures store.Steady() ==> r.Done?
      ensures r.Done? ==> ExpiredAll(old(store.Tables()), store.Tables(), e)
    {
      hide Sound, IsListable, Nature.Lawful, Concerns, Spent, DeadRows, Leaves, ExpiredAll;
      ghost var t: nat :| s <= t <= network.now && !RecordAt(t, e);
      TidyTables();
      RowsAreDead(Config(), network.nature, store.Tables(), e, namespace, s, t, network.now);
      r := NothingLanded(e, n);
    }

    /** No attempt can land any more: let the event's record decide. An empty id has no record address. */
    method ByRecord(e: string, n: nat) returns (r: Try<Report>)
      requires Valid() && e in store.events && store.events[e].status == IN_FLIGHT && store.events[e].attempts == n
      requires Spent(store.Tables(), network.View(Primary), e, n)
      requires forall k: nat :: (e, k) in store.attempts ==> store.attempts[(e, k)].params.namespace == namespace
      modifies store, network
      ensures Valid() && network.Passes() && Concerns(old(store.Tables()), store.Tables(), e)
      ensures SameButStatus(store.Tables(), old(store.Tables()), e)
      ensures r.Done? ==> e in store.events && store.events[e].status == Told(r.value)
      ensures store.Steady() && e != "" ==> !r.Threw?
      ensures StaysHealthy()
      ensures r != Done(WAITING) && r != Done(REFUSED)
      ensures r.Done? ==> Leaves(old(store.Tables()), store.Tables(), e, r.value)
      ensures r == Done(RETRY) || r == Done(Decided(NEEDS_ATTENTION)) ==> SeenMissing(e)
      ensures RestsOnTold(|old(network.told)|, e, r)
      ensures old(Healthy()) ==> !r.Crashed?
      ensures old(Healthy()) && e != "" ==> RecordDecides(old(network.now), old(store.Tables()), e, r)
    {
      hide Sound, IsListable, Nature.Lawful, Nature.Prompt, Concerns, AttemptsOf, Numbered, EventTidy, Spent, DeadRows,
        RecordAsOf, ByCreator, Leaves, ToldOf, SeenMissing;
      SameAsBefore(store.Tables(), e);
      if e == "" {
        return Threw;
      }
      ghost var s := network.Seen(Primary);
      var missing :- NoRecord(e);
      TracedDecides(network.now, e);
      if missing.None? {
        r := Unresolved(e);
        LeftAlone(old(store.Tables()), e);
        return;
      }
      if missing.value {
        r := WithoutRecord(e, n, s);
        return;
      }
      TidyEvent(e);
      var attempts :- store.Attempts(e, n);
      ghost var told := |network.told|;
      r := ResolveRecord(e, attempts);
      StillRests(told, |old(network.told)|, e, r);
    }

    /** Unless a record reads as settled, no creator decides. */
    lemma TracedDecides(n: nat, e: string)
      requires network.nature.Lawful()
      ensures RecordAsOf(n, e) != Done(true) ==> forall db: Db, r :: e in db.events ==> ByCreator(n, db, e, r)
    {
      hide CreatesRecord, NoCollision, CompleteHistory, Reliable, IsDecoy, IsTopLevel, RecordAsOf, Chosen, Nature.Lawful;
      forall j: nat | Traceable(n, e, j) && IsTopLevel(n, e, j)
        ensures RecordAsOf(n, e) == Done(true)
      {
        TracedReads(n, e, j);
      }
    }

    /** A settlement at top level left a record that reads as settled. */
    lemma TracedReads(n: nat, e: string, j: nat)
      requires network.nature.Lawful() && Traceable(n, e, j) && IsTopLevel(n, e, j)
      ensures RecordAsOf(n, e) == Done(true)
    {
      hide NoCollision, Reliable, CompleteHistory, IsDecoy, SettlesAtTop, Later, ReadRecord;
      TimePasses(network.nature, n, n);
      var client, c := network.nature.client, network.nature.timeline(n);
      SettledRecordReads(client, c, j, namespace, client.eventSeed(e));
    }

    /** After the check, every attempt is still one made here. */
    lemma RowsHere(e: string, attempts: seq<StoredAttempt>)
      requires ClosedSome(store.Tables(), e, attempts, |attempts|)
      requires !exists i :: 0 <= i < |attempts| && IsElsewhere(attempts[i])
      ensures forall k: nat :: (e, k) in store.attempts ==> store.attempts[(e, k)].params.namespace == namespace
    {}

    /**
      What waiting comes to without fault, looking at these moments: as long as
      an attempt could land it looked again, up to the number of polls, and the
      outcome is what the chain decided at the last look.
     */
    ghost predicate Awaited(moments: seq<nat>, polls: nat, db: Db, e: string, r: Try<Report>)
      requires e in db.events
    {
      && 0 < |moments| <= polls + 1
      && (forall i, j :: 0 <= i < j < |moments| ==> moments[i] <= moments[j])
      && (forall i :: 0 <= i < |moments| - 1 ==> AnyMayLand(moments[i], db, e))
      && ChainDecides(moments[|moments| - 1], db, e, r)
      && (r == Done(WAITING) ==> |moments| == polls + 1)
    }

    /** Once every attempt has landed or is past its last height, the next look is the last, and decides. */
    lemma WaitingEnds(moments: seq<nat>, polls: nat, db: Db, e: string, r: Try<Report>, n: nat)
      requires network.Valid() && e in db.events && Awaited(moments, polls, db, e, r)
      requires n <= moments[|moments| - 1] && !AnyMayLand(n, db, e) && !AnyElsewhere(db, e)
      ensures RecordDecides(moments[|moments| - 1], db, e, r)
      ensures forall i :: 0 <= i < |moments| - 1 ==> moments[i] < n
    {
      hide RecordDecides, AnyElsewhere;
      var last := |moments| - 1;
      NothingLater(n, moments[last], db, e);
      forall i | 0 <= i < last
        ensures moments[i] < n
      {
        if n <= moments[i] {
          NothingLater(n, moments[i], db, e);
        }
      }
    }

    lemma NothingLater(n: nat, m: nat, db: Db, e: string)
      requires network.Valid() && n <= m && !AnyMayLand(n, db, e)
      ensures !AnyMayLand(m, db, e)
    {
      TimePasses(network.nature, n, m);
      hide Nature.Lawful, MayLand, Later, ChainInv;
      forall k: nat | (e, k) in db.attempts
        ensures !MayLand(network.nature.timeline(m), db.attempts[(e, k)])
      {
        MayLandNoMore(network.nature.client.env, network.nature.timeline(n), network.nature.timeline(m), db.attempts[(e, k)]);
      }
    }

    /** What the looks so far have come to, the event having been as `first` has it. */
    ghost predicate Looked(moments: seq<nat>, first: Db, db: Db, e: string, r: Try<Report>)
      requires 0 < |moments|
    {
      var last := moments[|moments| - 1];
      && e in first.events && SameButStatus(db, first, e)
      && (forall i, j :: 0 <= i < j < |moments| ==> moments[i] <= moments[j])
      && (forall i :: 0 <= i < |moments| - 1 ==> AnyMayLand(moments[i], first, e))
      && ChainDecides(last, first, e, r)
      && (r == Done(WAITING) ==> OnlyFailedClosed(first, db, network.nature.timeline(last), e))
    }

    /** Closing failed attempts changes nothing of what the chain decides. */
    lemma DecidesAlike(n: nat, before: Db, after: Db, e: string, r: Try<Report>)
      requires e in before.events && SameButStatus(after, before, e)
      requires OnlyFailedClosed(before, after, network.nature.timeline(n), e)
      ensures ChainDecides(n, after, e, r) <==> ChainDecides(n, before, e, r)
    {
      hide Traceable, IsTopLevel, RecordAsOf, IsRequest, AgreesWith, MismatchesWith, MayLand, IsFailed;
      var c := network.nature.timeline(n);
      RequestsAlike(before, after, c, Current(), e);
      forall k: nat | (e, k) in before.attempts
        ensures MayLand(c, before.attempts[(e, k)]) <==> MayLand(c, after.attempts[(e, k)])
        ensures IsElsewhere(before.attempts[(e, k)]) <==> IsElsewhere(after.attempts[(e, k)])
      {
        MayLandAlike(before, after, c, e, k);
      }
    }

    lemma WaitsForLanding(n: nat, db: Db, e: string)
      requires e in db.events && ChainDecides(n, db, e, Done(WAITING))
      ensures AnyMayLand(n, db, e)
    {}

    lemma OneMoreLook(moments: seq<nat>, n: nat, first: Db, before: Db, after: Db, e: string, r: Try<Report>)
      requires network.Valid() && 0 < |moments| && moments[|moments| - 1] <= n
      requires Looked(moments, first, before, e, Done(WAITING)) && e in before.events
      requires ChainDecides(n, before, e, r) && SameButStatus(after, before, e)
      requires r == Done(WAITING) ==> OnlyFailedClosed(before, after, network.nature.timeline(n), e)
      ensures Looked(moments + [n], first, after, e, r)
    {
      hide ChainDecides, AnyMayLand, OnlyFailedClosed, Nature.Lawful, ChainInv, Later;
      var last := moments[|moments| - 1];
      TimePasses(network.nature, last, n);
      ClosedLater(network.nature.client.env, first, before, network.nature.timeline(last), network.nature.timeline(n), e);
      DecidesAlike(n, first, before, e, r);
      WaitsForLanding(last, first, e);
      if r == Done(WAITING) {
        ClosedTwice(first, before, after, network.nature.timeline(n), e);
      }
    }

    /** The first look, and one as each wait since ended. */
    ghost function LooksSince(first: nat, rests: nat): (moments: seq<nat>)
      requires rests <= |network.rests|
      reads network
    {
      [first] + network.rests[rests..]
    }

    /** Waiting never ends in a refusal; a retry rests on a missing record, and a payment or an incident on what was told. */
    ghost predicate IsGrounded(from: nat, e: string, r: Try<Report>)
      reads store, network
    {
      r != Done(REFUSED) && (r == Done(RETRY) ==> SeenMissing(e)) && RestsOnTold(from, e, r)
    }

    lemma NowGrounded(from: nat, since: nat, e: string, r: Try<Report>)
      requires r != Done(REFUSED) && (r == Done(RETRY) ==> SeenMissing(e)) && RestsOnTold(from, e, r) && since <= from
      ensures IsGrounded(since, e, r)
    {
      hide SeenMissing, ToldOf;
      StillRests(from, since, e, r);
    }

    lemma StillGrounded(from: nat, since: nat, e: string, r: Try<Report>)
      requires IsGrounded(from, e, r) && since <= from
      ensures IsGrounded(since, e, r)
    {
      hide SeenMissing, ToldOf;
      StillRests(from, since, e, r);
    }

    /** Wait, and look once more. */
    method Poll(e: string, ghost moments: seq<nat>, ghost first: Db) returns (r: Try<Report>, ghost looks: seq<nat>)
      requires Valid() && 0 < |moments| && moments[|moments| - 1] <= network.now
      modifies store, network
      ensures Valid() && network.Passes() && Concerns(old(store.Tables()), store.Tables(), e)
      ensures e in old(store.events) ==> SameButStatus(store.Tables(), old(store.Tables()), e)
      ensures r.Done? ==> e in store.events && store.events[e].status == Told(r.value)
      ensures IsGrounded(|old(network.told)|, e, r)
      ensures old(Healthy()) && r == Done(WAITING) ==> ResentFrom(|old(network.sends)|, e)
      ensures store.Steady() && e in old(store.events) && old(store.events)[e].status == IN_FLIGHT && e != "" ==> !r.Threw?
      ensures KeepsHealthy()
      ensures old(Healthy()) ==> !r.Crashed?
      ensures old(network.rests) < network.rests && looks == moments + network.rests[|old(network.rests)|..]
      ensures |looks| == |moments| + 1 && looks[|looks| - 1] <= network.now
      ensures old(Healthy()) ==> looks[|looks| - 1] == network.now
      ensures old(Healthy() && Looked(moments, first, store.Tables(), e, Done(WAITING))
                  && e in store.events && store.events[e].status == IN_FLIGHT) && e != "" ==>
                Looked(looks, first, store.Tables(), e, r)
    {
      hide Sound, IsListable, Nature.Lawful, Nature.Prompt, Concerns, ChainDecides, OnlyFailedClosed, Looked, AllResent,
        ToldOf, SeenMissing, Leaves, IsGrounded, RestsOnTold, ResentFrom;
      ghost var t, before := network.now, store.Tables();
      network.Wait();
      Elapsed(t);
      ghost var n := network.now;
      ghost var told, sent := |network.told|, |network.sends|;
      r := Resolve(e);
      if old(Healthy()) && r == Done(WAITING) {
        StillResent(sent, |old(network.sends)|, e);
      }
      NowGrounded(told, |old(network.told)|, e, r);
      looks := moments + [n];
      if old(Healthy() && Looked(moments, first, store.Tables(), e, Done(WAITING))
             && e in store.events && store.events[e].status == IN_FLIGHT) && e != "" {
        OneMoreLook(moments, n, first, before, store.Tables(), e, r);
      }
    }

    lemma LooksOn(first: nat, before: seq<nat>, after: seq<nat>, from: nat)
      requires from <= |before| && before <= after
      ensures ([first] + before[from..]) + after[|before|..] == [first] + after[from..]
    {
      assert after[from..] == before[from..] + after[|before|..];
    }

    lemma FirstLook(n: nat, first: Db, db: Db, e: string, r: Try<Report>)
      requires e in first.events ==> SameButStatus(db, first, e)
      ensures e in first.events && ChainDecides(n, first, e, r)
              && (r == Done(WAITING) ==> OnlyFailedClosed(first, db, network.nature.timeline(n), e)) ==>
                Looked([n], first, db, e, r)
    {
      hide ChainDecides, OnlyFailedClosed;
    }

    lemma LastLook(moments: seq<nat>, polls: nat, first: Db, db: Db, e: string, r: Try<Report>)
      requires 0 < |moments| <= polls + 1 && (r == Done(WAITING) ==> |moments| == polls + 1)
      ensures Looked(moments, first, db, e, r) ==> e in first.events && Awaited(moments, polls, first, e, r)
    {
      hide ChainDecides, OnlyFailedClosed;
    }

    /** Resolve until the outcome is known, or the polls before the deadline run out; time passes between them. */
    method AwaitOutcome(e: string, polls: nat) returns (r: Try<Report>, ghost moments: seq<nat>)
      requires Valid()
      modifies store, network
      ensures Valid() && network.Passes() && Concerns(old(store.Tables()), store.Tables(), e)
      ensures e in old(store.events) ==> SameButStatus(store.Tables(), old(store.Tables()), e)
      ensures r.Done? ==> e in store.events && store.events[e].status == Told(r.value)
      ensures IsGrounded(|old(network.told)|, e, r)
      ensures old(Healthy()) && r == Done(WAITING) ==> ResentFrom(|old(network.sends)|, e)
      ensures store.Steady() && e in old(store.events) && old(store.events)[e].status == IN_FLIGHT && e != "" ==> !r.Threw?
      ensures KeepsHealthy()
      ensures old(Healthy()) ==> !r.Crashed?
      ensures old(network.rests) <= network.rests
      ensures moments == [old(network.now)] + network.rests[|old(network.rests)|..] && |moments| <= polls + 1
      ensures old(Healthy()) ==> moments[|moments| - 1] == network.now
      ensures old(Healthy() && e in store.events && store.events[e].status == IN_FLIGHT) && e != "" ==>
                Awaited(moments, polls, old(store.Tables()), e, r)
    {
      hide Sound, IsListable, Nature.Lawful, Concerns, ChainDecides, OnlyFailedClosed, AllResent, ToldOf, SeenMissing,
        Leaves, Looked, SameButStatus, RestsOnTold, Awaited, IsGrounded, ResentFrom, Nature.Prompt;
      ghost var first, n := store.Tables(), network.now;
      var left := polls;
      r := Resolve(e);
      moments := [n];
      NowGrounded(|old(network.told)|, |old(network.told)|, e, r);
      FirstLook(n, first, store.Tables(), e, r);
      while left > 0 && r == Done(WAITING)
        invariant Valid() && network.Passes() && Concerns(first, store.Tables(), e)
        invariant e in first.events ==> SameButStatus(store.Tables(), first, e)
        invariant r.Done? ==> e in store.events && store.events[e].status == Told(r.value)
        invariant IsGrounded(|old(network.told)|, e, r)
        invariant old(Healthy()) && r == Done(WAITING) ==> ResentFrom(|old(network.sends)|, e)
        invariant store.Steady() && e in first.events && first.events[e].status == IN_FLIGHT && e != "" ==> !r.Threw?
        invariant KeepsHealthy() && (old(Healthy()) ==> !r.Crashed?)
        invariant 0 < |moments| == polls - left + 1
        invariant moments == [n] + network.rests[|old(network.rests)|..] && moments[|moments| - 1] <= network.now
        invariant old(Healthy()) ==> moments[|moments| - 1] == network.now
        invariant old(Healthy() && e in store.events && store.events[e].status == IN_FLIGHT) && e != "" ==>
                    && Looked(moments, first, store.Tables(), e, r)
        decreases left
      {
        ghost var before, told, sent, rests := store.Tables(), |network.told|, |network.sends|, network.rests;
        r, moments := Poll(e, moments, first);
        LooksOn(n, rests, network.rests, |old(network.rests)|);
        if old(Healthy()) && r == Done(WAITING) {
          StillResent(sent, |old(network.sends)|, e);
        }
        StillGrounded(told, |old(network.told)|, e, r);
        SameStill(first, before, store.Tables(), e);
        SameTwice(first, before, store.Tables(), e);
        left := left - 1;
      }
      LastLook(moments, polls, first, store.Tables(), e, r);
    }

    /** Look at an event again on request; a paid one is left alone. */
    method Recheck(e: string) returns (r: Try<Report>)
      requires Valid()
      modifies store, network
      ensures Valid() && network.Passes() && Concerns(old(store.Tables()), store.Tables(), e)
      ensures r.Done? ==> e in store.events && store.events[e].status == Told(r.value)
      ensures e in old(store.events) && old(store.events)[e].status == PAID ==> store.Tables() == old(store.Tables())
      ensures e !in old(store.events) ==> !r.Done?
      ensures StaysHealthy() && (old(Healthy()) ==> !r.Crashed?)
      ensures e in old(store.events) && old(store.events)[e].status != PAID ==> RestsOnTold(|old(network.told)|, e, r)
      ensures e in old(store.events) && old(store.events)[e].status != PAID && r.Done? ==>
                Leaves(old(store.Tables()), store.Tables(), e, r.value)
      ensures r == Done(RETRY) ==> SeenMissing(e)
      ensures old(Healthy() && e in store.events) && e != "" ==>
                if old(store.events)[e].status == PAID then r == Done(Decided(PAID))
                else ChainDecides(old(network.now), old(store.Tables()), e, r)
    {
      hide Sound, IsListable, Nature.Lawful, Concerns, ChainDecides, ToldOf, SeenMissing, Leaves;
      SameAsBefore(store.Tables(), e);
      var found :- store.Event(e);
      if found.None? {
        return Threw;
      }
      if found.value.status == PAID {
        return Done(Decided(PAID));
      }
      if found.value.status != IN_FLIGHT {
        var _ :- Mark(e, IN_FLIGHT);
      }
      ghost var before := store.Tables();
      StatusAside(network.now, old(store.Tables()), before, e);
      r := Resolve(e);
      if r.Done? {
        LeavesAside(old(store.Tables()), before, store.Tables(), e, r.value);
      }
      SameTwice(old(store.Tables()), before, store.Tables(), e);
    }

    /** The status an event has does not matter to what the chain decides. */
    lemma StatusAside(n: nat, before: Db, after: Db, e: string)
      requires e in before.events && SameButStatus(after, before, e) && SameAttempts(before, after, e)
      ensures forall r :: ChainDecides(n, after, e, r) <==> ChainDecides(n, before, e, r)
    {
      hide Traceable, IsTopLevel, RecordAsOf, TruthOf, IsMismatch, MayLand, IsElsewhere, IsRequest;
      RequestsAside(before, after, Current(), e);
    }

    // ----- Settling -----

    method LatestBlockhash() returns (r: Try<Blockhash>)
      requires Valid()
      modifies network
      ensures Valid() && network.Passes() && network.forwarded == old(network.forwarded)
      ensures StaysHealthy()
      ensures old(Healthy()) ==> r.Done?
    {
      ghost var t := network.now;
      hide Sound, IsListable, Nature.Lawful;
      r := network.GetLatestBlockhash();
      Elapsed(t);
    }

    /** The request and its parameters, before anything is signed. */
    method Begin(e: string) returns (r: Try<nat>)
      requires Valid() && e in store.events && store.events[e].status == PENDING && store.events[e].attempts < maxAttempts
      modifies store
      ensures Valid() && Concerns(old(store.Tables()), store.Tables(), e) && e in store.events
      ensures !r.Done? ==> store.Tables() == old(store.Tables())
      ensures r.Done? ==> store.Tables() == Begun(old(store.Tables()), e, old(store.events)[e].request, Current())
      ensures r.Done? ==> && store.events[e] == old(store.events)[e].(status := IN_FLIGHT, attempts := r.value)
                          && r.value == old(store.events)[e].attempts + 1
                          && (e, r.value) in store.attempts
                          && store.attempts[(e, r.value)] == StoredAttempt(e, r.value, store.events[e].request, Current(),
                                                                           None, None, None, PREPARED)
      ensures store.Steady() ==> r.Done?
    {
      hide Sound, IsListable, Nature.Lawful, Concerns, Begun;
      MayBegin(e);
      r := store.BeginAttempt(e, store.events[e].request, Current());
    }

    lemma MayBegin(e: string)
      requires Valid() && e in store.events && store.events[e].status == PENDING && store.events[e].attempts < maxAttempts
      ensures var after := Begun(store.Tables(), e, store.events[e].request, Current());
              var k := store.events[e].attempts + 1;
              && Sound(Config(), Now().(db := after))
              && (e, k) !in store.attempts
              && Concerns(store.Tables(), after, e) && Concerns(store.Tables(), store.Tables(), e)
              && e in after.events && after.events[e] == store.events[e].(status := IN_FLIGHT, attempts := k)
              && (e, k) in after.attempts
              && after.attempts[(e, k)] == StoredAttempt(e, k, store.events[e].request, Current(), None, None, None, PREPARED)
    {
      hide Sound, IsListable, Nature.Lawful, Concerns, EventTidy, Begun;
      TidyEvent(e);
      BeginKeeps(Config(), Now(), e, Current());
      BegunTidy(Config(), store.Tables(), e, Current());
      SameAsBefore(store.Tables(), e);
      BegunRow(store.Tables(), e, store.events[e].request, Current());
    }

    /** The signature and the bytes, before they are sent. */
    method Sign(e: string, k: nat, tx: Tx) returns (r: Try<()>)
      requires Valid() && e in store.events && store.events[e].status == IN_FLIGHT
      requires (e, k) in store.attempts && store.attempts[(e, k)].status == PREPARED
      requires IsBuilt(network.nature.client, store.attempts[(e, k)].request, store.attempts[(e, k)].params, tx)
      modifies store
      ensures Valid() && Concerns(old(store.Tables()), store.Tables(), e) && store.events == old(store.events)
      ensures (e, k) in store.attempts
      ensures r.Done? ==> store.attempts[(e, k)].raw == Some(tx) && store.attempts[(e, k)].status == SIGNED
      ensures r.Done? ==>
                store.Tables() == Signed(old(store.Tables()), e, k, tx.signature, tx, tx.lastValidBlockHeight)
      ensures store.Steady() ==> r.Done?
    {
      hide Sound, IsListable, Nature.Lawful, IsBuilt, Concerns, Signed;
      TidyRow(e, k);
      SignKeeps(Config(), Now(), e, k, tx);
      SignedElsewhere(store.Tables(), e, k, tx);
      r := store.RecordSigned(e, k, tx.signature, tx, tx.lastValidBlockHeight);
    }

    /** An attempt that came to nothing before it was sent: the event needs a person. */
    method GiveUp(e: string, k: nat) returns (r: Try<Report>)
      requires Valid() && e in store.events && store.events[e].status == IN_FLIGHT
      requires (e, k) in store.attempts && store.attempts[(e, k)].status == PREPARED
      modifies store
      ensures Valid() && Concerns(old(store.Tables()), store.Tables(), e)
      ensures SameButStatus(store.Tables(), old(store.Tables()), e)
      ensures r.Done? ==> store.events[e].status == Told(r.value) && r.value == Decided(NEEDS_ATTENTION)
      ensures store.Steady() ==> r == Done(Decided(NEEDS_ATTENTION))
      ensures r.Done? ==> (e, k) in store.attempts && store.attempts[(e, k)].status == FAILED
    {
      hide Sound, IsListable, Nature.Lawful, IsBuilt, IsDead, Concerns, WithAttemptStatus;
      TidyRow(e, k);
      var _ :- Close(e, k, FAILED);
      NowFailed(old(store.Tables()), e, k, network.Now());
      ghost var before := store.Tables();
      r := LeaveToPerson(e);
      SameTwice(old(store.Tables()), before, store.Tables(), e);
    }

    /** Leave an unpaid event to a person. */
    method LeaveToPerson(e: string) returns (r: Try<Report>)
      requires Valid() && e in store.events && store.events[e].status != PAID
      modifies store
      ensures Valid() && Concerns(old(store.Tables()), store.Tables(), e)
      ensures r.Done? ==> e in store.events && store.events[e].status == Told(r.value) && r.value == Decided(NEEDS_ATTENTION)
      ensures store.Tables() == if r.Done? then WithStatus(old(store.Tables()), e, NEEDS_ATTENTION) else old(store.Tables())
      ensures SameButStatus(store.Tables(), old(store.Tables()), e)
      ensures store.Steady() ==> r == Done(Decided(NEEDS_ATTENTION))
      ensures store.attempts == old(store.attempts)
    {
      hide Sound, IsListable, Nature.Lawful, Concerns;
      var _ :- Mark(e, NEEDS_ATTENTION);
      return Done(Decided(NEEDS_ATTENTION));
    }

    /** Nothing ever sent for a pending event is alive. */
    lemma NothingAlive(e: string)
      requires Valid() && e in store.events && store.events[e].status == PENDING
      ensures AllDead(e)
    {
      ClientIsValid();
      hide Sound, IsListable, Nature.Lawful, NamesEvent;
      forall tx | tx in network.forwarded && NamesEvent(network.nature.client, tx, e)
        ensures IsDead(network.Now(), tx)
      {
        PendingIsSafe(Config(), Now(), e, tx);
      }
    }

    ghost predicate AllDead(e: string)
      reads network
    {
      forall tx :: tx in network.forwarded && NamesEvent(network.nature.client, tx, e) ==> IsDead(network.Now(), tx)
    }

    /** A node refused the attempt before passing it on: close it, and let the record tell why. */
    method AfterRefusal(e: string, k: nat) returns (r: Try<Option<Report>>)
      requires Valid() && e in store.events && store.events[e].status == IN_FLIGHT && store.events[e].attempts == k
      requires (e, k) in store.attempts && store.attempts[(e, k)].raw.Some?
      requires store.attempts[(e, k)].raw.value in network.forwarded ==>
                 IsDead(network.Now(), store.attempts[(e, k)].raw.value)
      modifies store, network
      ensures Valid() && network.Passes() && Concerns(old(store.Tables()), store.Tables(), e)
      ensures SameButStatus(store.Tables(), old(store.Tables()), e)
      ensures r.Done? && r.value.Some? ==> store.events[e].status == Told(r.value.value)
      ensures r.Done? ==> (e, k) in store.attempts && store.attempts[(e, k)].status == FAILED
      ensures r == Done(Some(REFUSED)) ==> SeenMissing(e)
      ensures r == Done(None) ==> RecordAsOf(network.seenPrimary, e) == Done(true) && store.events == old(store.events)
      ensures r.Done? && r.value.Some? ==> r.value == Some(REFUSED) || r.value == Some(UNRESOLVED)
      ensures r.Done? ==>
                store.Tables() == if r.value == Some(REFUSED)
                                  then WithStatus(WithAttemptStatus(old(store.Tables()), e, k, FAILED), e, PENDING)
                                  else WithAttemptStatus(old(store.Tables()), e, k, FAILED)
      ensures store.Steady() ==> !r.Threw?
      ensures network.forwarded == old(network.forwarded)
      ensures StaysHealthy()
      ensures old(Healthy()) ==> r == Done(RefusalTold(RecordAsOf(old(network.now), e)))
    {
      hide Sound, IsListable, Nature.Lawful, Nature.Prompt, Concerns, IsDead, WithAttemptStatus, AllClosed, Tidy,
        WithStatus, SeenMissing, RecordAsOf;
      SameAsBefore(store.Tables(), e);
      ghost var before := store.Tables();
      TidyTables();
      var _ :- Close(e, k, FAILED);
      RefusedIsClosed(before, e, k);
      r := TellRefusal(e);
      SameTwice(old(store.Tables()), WithAttemptStatus(before, e, k, FAILED), store.Tables(), e);
    }

    /** What a refusal comes to, by how the event's record reads. */
    function RefusalTold(record: Try<bool>): Option<Report> {
      match record
      case Done(found) => if found then None else Some(REFUSED)
      case _ => Some(UNRESOLVED)
    }

    /** Why it was refused: with no record the event is tried again; with one, look further. */
    method TellRefusal(e: string) returns (r: Try<Option<Report>>)
      requires Valid() && e in store.events && store.events[e].status == IN_FLIGHT && AllClosed(store.Tables(), e)
      modifies store, network
      ensures Valid() && network.Passes() && Concerns(old(store.Tables()), store.Tables(), e)
      ensures SameButStatus(store.Tables(), old(store.Tables()), e) && store.attempts == old(store.attempts)
      ensures r.Done? && r.value.Some? ==> store.events[e].status == Told(r.value.value)
      ensures r == Done(None) ==> store.Tables() == old(store.Tables())
      ensures r == Done(Some(REFUSED)) ==> SeenMissing(e)
      ensures r == Done(None) ==> RecordAsOf(network.seenPrimary, e) == Done(true)
      ensures r.Done? && r.value.Some? ==>
                || (r.value == Some(REFUSED) && store.Tables() == WithStatus(old(store.Tables()), e, PENDING))
                || (r.value == Some(UNRESOLVED) && store.Tables() == old(store.Tables()))
      ensures store.Steady() ==> !r.Threw?
      ensures network.forwarded == old(network.forwarded)
      ensures StaysHealthy()
      ensures old(Healthy()) ==> r == Done(RefusalTold(RecordAsOf(old(network.now), e)))
    {
      hide Sound, IsListable, Nature.Lawful, Nature.Prompt, Concerns, AllClosed, WithStatus, SeenMissing, RecordAsOf;
      SameAsBefore(store.Tables(), e);
      var missing :- NoRecord(e);
      if missing.None? {
        var told :- Unresolved(e);
        return Done(Some(told));
      }
      if missing.value {
        var _ :- Mark(e, PENDING);
        return Done(Some(REFUSED));
      }
      return Done(None);
    }

    lemma RefusedIsClosed(before: Db, e: string, k: nat)
      requires Tidy(Config(), before) && e in before.events && before.events[e].status == IN_FLIGHT
      requires before.events[e].attempts == k && (e, k) in before.attempts
      ensures var after := WithAttemptStatus(before, e, k, FAILED);
              AllClosed(after, e) && (e, k) in after.attempts && after.attempts[(e, k)].status == FAILED
    {}

    /** The same event, but for its status and one attempt more at most. */
    predicate IsStill(after: StoredEvent, before: StoredEvent) {
      || after == before.(status := after.status)
      || after == before.(status := after.status, attempts := before.attempts + 1)
    }

    /** Send one attempt for a pending event, and follow it to an outcome. */
    method Settle(event: StoredEvent, polls: nat) returns (r: Try<Report>)
      requires Valid() && event.eventId in store.events && store.events[event.eventId] == event && event.status == PENDING
      modifies store, network
      ensures Valid() && network.Passes() && Concerns(old(store.Tables()), store.Tables(), event.eventId)
      ensures event.eventId in store.events && IsStill(store.events[event.eventId], event)
      ensures r.Done? ==> store.events[event.eventId].status == Told(r.value)
      ensures event.attempts >= maxAttempts ==>
                && store.Tables() == (if r.Done? then WithStatus(old(store.Tables()), event.eventId, NEEDS_ATTENTION)
                                      else old(store.Tables()))
                && (r.Done? ==> r.value == Decided(NEEDS_ATTENTION))
      ensures event.attempts < maxAttempts && store.events[event.eventId].attempts == event.attempts ==>
                store.Tables() == old(store.Tables()) && (r.Done? ==> r.value == RETRY)
      ensures store.events[event.eventId].attempts > event.attempts && (r == Done(REFUSED) || r == Done(RETRY)) ==>
                SeenMissing(event.eventId)
      ensures r == Done(REFUSED) ==> network.forwarded == old(network.forwarded)
      ensures RestsOnTold(|old(network.told)|, event.eventId, r)
      ensures old(Healthy()) && r == Done(WAITING) ==> ResentFrom(|old(network.sends)|, event.eventId)
      ensures store.Steady() ==> !r.Threw?
      ensures KeepsHealthy() && (old(Healthy()) ==> !r.Crashed?)
      ensures old(Healthy()) && (forall latest :: !CanSign(event.request, latest)) ==> r == Done(Decided(NEEDS_ATTENTION))
      ensures old(Healthy()) ==>
                if event.attempts >= maxAttempts then r == Done(Decided(NEEDS_ATTENTION))
                else (forall latest :: CanSign(event.request, latest)) ==>
                       && SentOut(Now(), event.eventId, event.attempts + 1, event.request)
                       && SeenThrough(LooksSince(old(network.now), |old(network.rests)|), polls,
                                      BegunNow(old(store.Tables()), event), event.eventId, event.attempts + 1, r)
    {
      var e := event.eventId;
      hide Sound, IsListable, Nature.Lawful, Concerns, AllClosed, CanSign, SentOut, SeenThrough, BegunNow, AllResent,
        ToldOf, SeenMissing;
      SameAsBefore(store.Tables(), e);
      if event.attempts >= maxAttempts {
        r := LeaveToPerson(e);
        return;
      }
      var latest := LatestBlockhash();
      if latest.Crashed? {
        return Crashed;
      }
      if latest.Threw? {
        PendingIsClosed(e);
        var _ :- Mark(e, PENDING);
        return Done(RETRY);
      }
      ghost var told, sent := |network.told|, |network.sends|;
      r := Attempt(event, latest.value, polls);
      if old(Healthy()) && r == Done(WAITING) {
        StillResent(sent, |old(network.sends)|, e);
      }
      StillRests(told, |old(network.told)|, e, r);
    }

    lemma PendingIsClosed(e: string)
      requires Valid() && e in store.events && store.events[e].status == PENDING
      ensures AllClosed(store.Tables(), e)
    {}

    /** The request can be built, and what is built can be signed. */
    predicate CanSign(request: Request, latest: Blockhash) {
      var built := Build(network.nature.client, request, payer, authority, namespace, scale);
      built.Ok? && sign(Instructions(built.value), latest).Some?
    }

    /** Attempt `k` of the event holds the settlement of the request, and it was sent. */
    ghost predicate SentOut(w: World, e: string, k: nat, request: Request) {
      && (e, k) in w.db.attempts && w.db.attempts[(e, k)].raw.Some?
      && w.db.attempts[(e, k)].raw.value in w.forwarded
      && IsBuilt(network.nature.client, request, Current(), w.db.attempts[(e, k)].raw.value)
    }

    lemma SentStays(v: World, w: World, e: string, f: string, k: nat, request: Request)
      requires Concerns(v.db, w.db, f) && v.forwarded <= w.forwarded && SentOut(v, e, k, request)
      ensures SentOut(w, e, k, request)
    {}

    /** The tables with the next attempt prepared, under the current parameters. */
    function BegunNow(db: Db, event: StoredEvent): Db
      requires event.eventId in db.events
    {
      Begun(db, event.eventId, event.request, Current())
    }

    /** Prepare, sign, store and send, in that order. */
    method Attempt(event: StoredEvent, latest: Blockhash, polls: nat) returns (r: Try<Report>)
      requires Valid() && event.eventId in store.events && store.events[event.eventId] == event && event.status == PENDING
      requires event.attempts < maxAttempts
      modifies store, network
      ensures Valid() && network.Passes() && Concerns(old(store.Tables()), store.Tables(), event.eventId)
      ensures event.eventId in store.events && IsStill(store.events[event.eventId], event)
      ensures r.Done? ==> store.events[event.eventId].status == Told(r.value)
      ensures store.events[event.eventId].attempts == event.attempts ==> store.Tables() == old(store.Tables()) && !r.Done?
      ensures r == Done(REFUSED) || r == Done(RETRY) ==> SeenMissing(event.eventId)
      ensures r == Done(REFUSED) ==> network.forwarded == old(network.forwarded)
      ensures RestsOnTold(|old(network.told)|, event.eventId, r)
      ensures old(Healthy()) && r == Done(WAITING) ==> ResentFrom(|old(network.sends)|, event.eventId)
      ensures store.Steady() ==> !r.Threw?
      ensures KeepsHealthy() && (old(Healthy()) ==> !r.Crashed?)
      ensures old(Healthy()) ==>
                if CanSign(event.request, latest)
                then && SentOut(Now(), event.eventId, event.attempts + 1, event.request)
                     && SeenThrough(LooksSince(old(network.now), |old(network.rests)|), polls,
                                    BegunNow(old(store.Tables()), event), event.eventId, event.attempts + 1, r)
                else r == Done(Decided(NEEDS_ATTENTION))
    {
      hide Sound, IsListable, Nature.Lawful, Nature.Prompt, Concerns, SentOut, SeenThrough, CanSign, AllDead, Begun,
        EventTidy, AllResent, ToldOf, SeenMissing;
      TidyEvent(event.eventId);
      NothingAlive(event.eventId);
      var k :- Begin(event.eventId);
      ghost var begun := store.Tables();
      ghost var told, sent := |network.told|, |network.sends|;
      r := SignAndSend(event.eventId, k, latest, polls);
      if old(Healthy()) && r == Done(WAITING) {
        StillResent(sent, |old(network.sends)|, event.eventId);
      }
      StillRests(told, |old(network.told)|, event.eventId, r);
      SameTwice(old(store.Tables()), begun, store.Tables(), event.eventId);
    }

    /** Attempt `k`, prepared as the tables have it, was signed and then waited for. */
    ghost predicate SeenThrough(moments: seq<nat>, polls: nat, prepared: Db, e: string, k: nat, r: Try<Report>)
      requires e in prepared.events
    {
      (e, k) in prepared.attempts
      && exists tx: Tx ::
           && IsBuilt(network.nature.client, prepared.events[e].request, Current(), tx)
           && Awaited(moments, polls, Signed(prepared, e, k, tx.signature, tx, tx.lastValidBlockHeight), e, r)
    }

    /** Build and sign what was prepared, store it, and send it. */
    method SignAndSend(e: string, k: nat, latest: Blockhash, polls: nat) returns (r: Try<Report>)
      requires Valid() && e in store.events && store.events[e].status == IN_FLIGHT && store.events[e].attempts == k
      requires (e, k) in store.attempts && store.attempts[(e, k)].status == PREPARED
      requires store.attempts[(e, k)].request == store.events[e].request && store.attempts[(e, k)].params == Current()
      requires store.events[e].request.eventId == e && AllDead(e)
      modifies store, network
      ensures Valid() && network.Passes() && Concerns(old(store.Tables()), store.Tables(), e)
      ensures SameButStatus(store.Tables(), old(store.Tables()), e)
      ensures r.Done? ==> store.events[e].status == Told(r.value)
      ensures r == Done(REFUSED) || r == Done(RETRY) ==> SeenMissing(e)
      ensures r == Done(REFUSED) ==> network.forwarded == old(network.forwarded)
      ensures RestsOnTold(|old(network.told)|, e, r)
      ensures old(Healthy()) && r == Done(WAITING) ==> ResentFrom(|old(network.sends)|, e)
      ensures store.Steady() ==> !r.Threw?
      ensures KeepsHealthy() && (old(Healthy()) ==> !r.Crashed?)
      ensures old(Healthy()) ==>
                if CanSign(old(store.events)[e].request, latest)
                then && SentOut(Now(), e, k, old(store.events)[e].request)
                     && SeenThrough(LooksSince(old(network.now), |old(network.rests)|), polls, old(store.Tables()), e, k, r)
                else r == Done(Decided(NEEDS_ATTENTION))
    {
      hide Sound, IsListable, Nature.Lawful, Nature.Prompt, Concerns, IsBuilt, IsDead, Build, NamesEvent, ClientValid,
        SentOut, SeenThrough, Awaited, Signed, AllResent, ToldOf, SeenMissing;
      ClientIsValid();
      var request := store.events[e].request;
      var built := Build(network.nature.client, request, payer, authority, namespace, scale);
      var signature := if built.Ok? then sign(Instructions(built.value), latest) else None;
      if signature.None? {
        r := GiveUp(e, k);
        return;
      }
      var tx := Tx(signature.value, Instructions(built.value), latest.lastValidBlockHeight);
      BuildsIt(request, built.value, signature.value, latest);
      BuiltSettles(network.nature.client, request, Current(), tx);
      var _ :- Sign(e, k, tx);
      ghost var stored := store.Tables();
      ghost var told, sent := |network.told|, |network.sends|;
      r := SendOff(e, k, polls);
      if old(Healthy()) && r == Done(WAITING) {
        StillResent(sent, |old(network.sends)|, e);
      }
      StillRests(told, |old(network.told)|, e, r);
      SameTwice(old(store.Tables()), stored, store.Tables(), e);
      if old(Healthy()) {
        WasSent(old(store.Tables()), stored, Now(), LooksSince(old(network.now), |old(network.rests)|), polls, e, k, tx, r);
      }
    }

    /** Send the signed attempt, and follow it to an outcome. */
    method SendOff(e: string, k: nat, polls: nat) returns (r: Try<Report>)
      requires Valid() && e in store.events && store.events[e].status == IN_FLIGHT && store.events[e].attempts == k
      requires (e, k) in store.attempts && store.attempts[(e, k)].status == SIGNED && store.attempts[(e, k)].raw.Some?
      requires store.attempts[(e, k)].raw.value in network.forwarded ==>
                 IsDead(network.Now(), store.attempts[(e, k)].raw.value)
      modifies store, network
      ensures Valid() && network.Passes() && Concerns(old(store.Tables()), store.Tables(), e)
      ensures SameButStatus(store.Tables(), old(store.Tables()), e)
      ensures r.Done? ==> store.events[e].status == Told(r.value)
      ensures r == Done(REFUSED) || r == Done(RETRY) ==> SeenMissing(e)
      ensures old(network.sends) < network.sends
      ensures network.sends[|old(network.sends)|] == Sending(old(store.attempts)[(e, k)].raw.value, true)
      ensures r == Done(REFUSED) ==> network.forwarded == old(network.forwarded)
      ensures RestsOnTold(|old(network.told)|, e, r)
      ensures old(Healthy()) && r == Done(WAITING) ==> ResentFrom(|old(network.sends)|, e)
      ensures store.Steady() && e != "" ==> !r.Threw?
      ensures KeepsHealthy() && (old(Healthy()) ==> !r.Crashed?)
      ensures old(Healthy()) ==> old(store.attempts)[(e, k)].raw.value in network.forwarded
      ensures old(Healthy()) && e != "" ==>
                Awaited(LooksSince(old(network.now), |old(network.rests)|), polls, old(store.Tables()), e, r)
    {
      hide Sound, IsListable, Nature.Lawful, Nature.Prompt, Concerns, IsDead, Awaited, AllResent, ToldOf, SeenMissing,
        RecordAsOf, WithStatus, WithAttemptStatus;
      SameAsBefore(store.Tables(), e);
      ghost var t, tx := network.now, store.attempts[(e, k)].raw.value;
      var sent := Submit(e, k, true);
      if sent.Crashed? {
        return Crashed;
      }
      ghost var tables := store.Tables();
      if sent == Done(SimulationFailed) {
        StillDead(t, tx);
        var refused := AfterRefusal(e, k);
        tables := store.Tables();
        var report :- refused;
        if report.Some? {
          return Done(report.value);
        }
      }
      ghost var moments, told, sends := [], |network.told|, |network.sends|;
      r, moments := AwaitOutcome(e, polls);
      if old(Healthy()) && r == Done(WAITING) {
        StillResent(sends, |old(network.sends)|, e);
      }
      StillRests(told, |old(network.told)|, e, r);
      SameTwice(old(store.Tables()), tables, store.Tables(), e);
    }

    lemma StillDead(t: nat, tx: Tx)
      requires network.Valid() && t <= network.now
      ensures IsDead(network.nature.timeline(t), tx) ==> IsDead(network.Now(), tx)
    {
      TimePasses(network.nature, t, network.now);
      hide IsDead;
      if IsDead(network.nature.timeline(t), tx) {
        DeadStays(network.nature.client.env, network.nature.timeline(t), network.Now(), tx);
      }
    }

    lemma WasSent(prepared: Db, stored: Db, w: World, moments: seq<nat>, polls: nat, e: string, k: nat, tx: Tx, r: Try<Report>)
      requires e in prepared.events && (e, k) in prepared.attempts
      requires IsBuilt(network.nature.client, prepared.events[e].request, Current(), tx)
      requires stored == Signed(prepared, e, k, tx.signature, tx, tx.lastValidBlockHeight)
      requires (e, k) in stored.attempts && stored.attempts[(e, k)].raw == Some(tx)
      requires e in stored.events && Awaited(moments, polls, stored, e, r)
      requires Concerns(stored, w.db, e) && tx in w.forwarded
      ensures SentOut(w, e, k, prepared.events[e].request) && SeenThrough(moments, polls, prepared, e, k, r)
    {
      hide Awaited, IsBuilt, Signed;
      BytesKept(stored, w.db, e, k);
    }

    lemma BuildsIt(request: Request, built: Built, signature: string, latest: Blockhash)
      requires Build(network.nature.client, request, payer, authority, namespace, scale) == Ok(built)
      ensures request.eventId != ""
      ensures IsBuilt(network.nature.client, request, Current(),
                      Tx(signature, Instructions(built), latest.lastValidBlockHeight))
    {}

    // ----- A round of work -----

    /** Let time pass before the next command. */
    method Rest()
      requires Valid()
      modifies network
      ensures Valid() && network.Passes() && network.forwarded == old(network.forwarded) && KeepsHealthy()
    {
      hide Sound, IsListable, Nature.Lawful;
      ghost var t := network.now;
      network.Wait();
      Elapsed(t);
    }

    /** After a throw, keep any decision the store already holds, and report it. */
    method Contain(e: string) returns (r: Try<Report>)
      requires Valid()
      modifies store
      ensures Valid() && Concerns(old(store.Tables()), store.Tables(), e)
      ensures store.Tables() == old(store.Tables())
      ensures r.Done? && r.value != UNRESOLVED ==> e in store.events && store.events[e].status == Told(r.value)
      ensures !r.Threw?
      ensures store.Steady() ==>
                r == Done(if e !in store.events || store.events[e].status == IN_FLIGHT then UNRESOLVED
                          else if store.events[e].status == PENDING then RETRY
                          else Decided(store.events[e].status))
    {
      hide Sound, IsListable, Nature.Lawful, Concerns;
      SameAsBefore(store.Tables(), e);
      var found := store.Event(e);
      if found.Crashed? {
        return Crashed;
      }
      if found.Threw? || found.value.None? {
        return Done(UNRESOLVED);
      }
      if found.value.value.status == IN_FLIGHT {
        var noted := Mark(e, IN_FLIGHT);
        return if noted.Crashed? then Crashed else Done(UNRESOLVED);
      }
      return Done(if found.value.value.status == PENDING then RETRY else Decided(found.value.value.status));
    }

    /** The listed events are different ones, each with its id. */
    lemma ListedEvents(status: EventStatus, n: nat)
      requires Valid() && n <= |Listed(store.order, store.events, status)|
      ensures AreCurrent(store.Tables(), Listed(store.order, store.events, status)[..n], 0, status)
    {
      hide Sound, Nature.Lawful;
      forall i | 0 <= i < |store.order|
        ensures store.events[store.order[i]].eventId == store.order[i]
      {
        TidyEvent(store.order[i]);
      }
      ListedOnce(store.order, store.events, status);
      var rows := Listed(store.order, store.events, status);
      hide Listed;
      forall i | 0 <= i < |rows|
        ensures IsCurrent(store.Tables(), rows[i], status)
      {
        var j :| 0 <= j < |store.order| && rows[i] == store.events[store.order[j]];
      }
    }

    /** Resolve one event; a throw is contained. */
    method ResolveOne(e: string) returns (r: Try<Report>)
      requires Valid()
      modifies store, network
      ensures Valid() && network.Passes() && Concerns(old(store.Tables()), store.Tables(), e)
      ensures !r.Threw? && StaysHealthy()
      ensures r.Done? && (store.Steady() || r.value != UNRESOLVED) && e in old(store.events) ==>
                HasStatus(store.Tables(), e, Told(r.value))
      ensures old(Healthy()) ==> r.Done?
      ensures old(Healthy() && e in store.events && store.events[e].status == IN_FLIGHT) && e != "" ==>
                ChainDecides(old(network.now), old(store.Tables()), e, r)
    {
      hide Sound, IsListable, Nature.Lawful, Concerns, ChainDecides;
      r := Resolve(e);
      if r.Threw? {
        if e in old(store.events) {
          NeverThrows(old(network.now), old(store.Tables()), e);
        }
        ghost var before := store.Tables();
        r := Contain(e);
        SameTwice(old(store.Tables()), before, store.Tables(), e);
      }
    }

    lemma NeverThrows(n: nat, db: Db, e: string)
      requires e in db.events
      ensures !ChainDecides(n, db, e, Threw)
    {}

    /** The report is what the chain decides of the event, as the tables have it. */
    ghost predicate Reported(n: nat, db: Db, report: (string, Report)) {
      report.0 in db.events && (report.0 != "" ==> ChainDecides(n, db, report.0, Done(report.1)))
    }

    /** The next event listed is as it was at first, so the chain decides the same of it. */
    lemma NextListed(n: nat, first: Db, before: Db, events: seq<StoredEvent>, i: nat)
      requires i < |events| && AreCurrent(first, events, 0, IN_FLIGHT)
      requires AreCurrent(before, events, i, IN_FLIGHT) && OnlyTouched(first, before, events, i)
      ensures IsCurrent(before, events[i], IN_FLIGHT) && events[i].eventId in first.events
      ensures forall r ::
                ChainDecides(n, before, events[i].eventId, r) <==> ChainDecides(n, first, events[i].eventId, r)
    {
      UntouchedYet(first, before, events, i);
      assert IsCurrent(first, events[i], IN_FLIGHT) && IsCurrent(before, events[i], IN_FLIGHT);
      hide ChainDecides;
      StatusAside(n, first, before, events[i].eventId);
    }

    /** Resolve the next event listed; the others are left as they were. */
    method ResolveNext(events: seq<StoredEvent>, i: nat, ghost first: Db, ghost n: nat) returns (r: Try<Report>)
      requires Valid() && i < |events| && AreCurrent(first, events, 0, IN_FLIGHT)
      requires AreCurrent(store.Tables(), events, i, IN_FLIGHT) && OnlyTouched(first, store.Tables(), events, i)
      modifies store, network
      ensures Valid() && network.Passes()
      ensures AreCurrent(store.Tables(), events, i + 1, IN_FLIGHT) && OnlyTouched(first, store.Tables(), events, i + 1)
      ensures Concerns(old(store.Tables()), store.Tables(), events[i].eventId)
      ensures r.Done? && (store.Steady() || r.value != UNRESOLVED) ==>
                HasStatus(store.Tables(), events[i].eventId, Told(r.value))
      ensures !r.Threw? && StaysHealthy()
      ensures old(Healthy()) && old(network.now) == n ==> r.Done? && Reported(n, first, (events[i].eventId, r.value))
    {
      hide Sound, IsListable, Nature.Lawful, Concerns, AreCurrent, OnlyTouched, ChainDecides;
      ghost var before := store.Tables();
      NextListed(network.now, first, before, events, i);
      r := ResolveOne(events[i].eventId);
      StillCurrent(before, store.Tables(), events, i, IN_FLIGHT);
      OneTouched(first, before, store.Tables(), events, i);
    }

    /** Resolve events in flight one after another. */
    method ResolveEach(events: seq<StoredEvent>) returns (r: Try<seq<(string, Report)>>)
      requires Valid() && AreCurrent(store.Tables(), events, 0, IN_FLIGHT)
      modifies store, network
      ensures Valid() && network.Passes() && StaysHealthy()
      ensures r.Done? ==> |r.value| == |events| && AreOf(r.value, events)
      ensures OnlyTouched(old(store.Tables()), store.Tables(), events, |events|)
      ensures r.Done? ==> AsReported(store.Tables(), r.value, store.Steady())
      ensures old(Healthy()) ==> r.Done? && AllReported(old(network.now), old(store.Tables()), r.value)
    {
      hide Sound, IsListable, Nature.Lawful, AreCurrent, OnlyTouched, Reported, Concerns, AsReported, AreOf;
      StartReporting(store.Tables(), events, IN_FLIGHT);
      var reports: seq<(string, Report)> := [];
      for i := 0 to |events|
        invariant Valid() && network.Passes() && StaysHealthy()
        invariant |reports| == i && AreOf(reports, events)
        invariant AreCurrent(store.Tables(), events, i, IN_FLIGHT)
        invariant OnlyTouched(old(store.Tables()), store.Tables(), events, i)
        invariant AsReported(store.Tables(), reports, store.Steady())
        invariant old(Healthy()) ==> AllReported(old(network.now), old(store.Tables()), reports)
      {
        ghost var before := store.Tables();
        var told := ResolveNext(events, i, old(store.Tables()), old(network.now));
        if !told.Done? {
          MoreTouched(old(store.Tables()), store.Tables(), events, i + 1);
          return told.PropagateFailure();
        }
        NextReported(before, store.Tables(), events, reports, told.value, store.Steady());
        reports := reports + [(events[i].eventId, told.value)];
      }
      return Done(reports);
    }

    ghost predicate AllReported(n: nat, db: Db, reports: seq<(string, Report)>) {
      forall i :: 0 <= i < |reports| ==> Reported(n, db, reports[i])
    }

    /**
      Resolve every event in flight. One that throws does not stop the rest;
      without fault, each comes to what the chain decides of it.
     */
    method ResolveAll() returns (r: Try<seq<(string, Report)>>)
      requires Valid()
      modifies store, network
      ensures Valid() && network.Passes() && StaysHealthy()
      ensures var listed := Listed(old(store.order), old(store.events), IN_FLIGHT);
              && OnlyTouched(old(store.Tables()), store.Tables(), listed, |listed|)
              && (r.Done? ==> && |r.value| == |listed| && AreOf(r.value, listed)
                              && AsReported(store.Tables(), r.value, store.Steady()))
      ensures old(Healthy()) ==> r.Done? && AllReported(old(network.now), old(store.Tables()), r.value)
    {
      hide Sound, Nature.Lawful, Listed, AreCurrent, AllReported, AreOf, OnlyTouched, AsReported;
      ghost var listed := Listed(store.order, store.events, IN_FLIGHT);
      NothingTouched(store.Tables(), listed);
      ListedEvents(IN_FLIGHT, |listed|);
      assert listed[..|listed|] == listed;
      var events :- store.EventsWithStatus(IN_FLIGHT, None);
      r := ResolveEach(events);
    }

    /** Settle one event; a throw is contained. */
    method SettleOne(event: StoredEvent, polls: nat) returns (r: Try<Report>)
      requires Valid() && IsCurrent(store.Tables(), event, PENDING)
      modifies store, network
      ensures Valid() && network.Passes() && Concerns(old(store.Tables()), store.Tables(), event.eventId)
      ensures !r.Threw? && KeepsHealthy()
      ensures r.Done? && (store.Steady() || r.value != UNRESOLVED) ==>
                HasStatus(store.Tables(), event.eventId, Told(r.value))
      ensures old(Healthy()) ==> r.Done? && Attempted(Now(), network.rests, polls, event, r.value)
    {
      hide Sound, IsListable, Nature.Lawful, Nature.Prompt, Concerns, CanSign, SentOut, SeenThrough, BegunNow, Polled;
      ghost var first, rests := network.now, |network.rests|;
      r := Settle(event, polls);
      NowPolled(first, rests, polls, old(store.Tables()), event, r);
      if r.Threw? {
        ghost var before := Now();
        r := Contain(event.eventId);
        SameTwice(old(store.Tables()), before.db, store.Tables(), event.eventId);
      }
    }

    /** The event was waited for as long as that many polls allow, and then reported on. */
    ghost predicate Polled(rests: seq<nat>, polls: nat, event: StoredEvent, report: Report) {
      exists first, i, j, db: Db :: SeenFrom(first, rests, i, j, polls, db, event, report)
    }

    ghost predicate SeenFrom(first: nat, rests: seq<nat>, i: nat, j: nat, polls: nat, db: Db, event: StoredEvent,
                             report: Report)
    {
      && i <= j <= |rests| && event.eventId in db.events && db.events[event.eventId] == event
      && SeenThrough([first] + rests[i..j], polls, BegunNow(db, event), event.eventId, event.attempts + 1, Done(report))
    }

    /**
      At the cap the event goes to a person, and below it one that cannot be
      built and signed; one that can was sent, and waited for.
     */
    ghost predicate Attempted(w: World, rests: seq<nat>, polls: nat, event: StoredEvent, report: Report) {
      if event.attempts >= maxAttempts then report == Decided(NEEDS_ATTENTION)
      else && ((forall latest :: CanSign(event.request, latest)) ==>
                 SentOut(w, event.eventId, event.attempts + 1, event.request) && Polled(rests, polls, event, report))
           && ((forall latest :: !CanSign(event.request, latest)) ==> report == Decided(NEEDS_ATTENTION))
    }

    lemma PolledStays(before: seq<nat>, after: seq<nat>, polls: nat, event: StoredEvent, report: Report)
      requires before <= after && Polled(before, polls, event, report)
      ensures Polled(after, polls, event, report)
    {
      hide SeenThrough;
      var first: nat, i: nat, j: nat, db: Db :| SeenFrom(first, before, i, j, polls, db, event, report);
      assert after[i..j] == before[i..j];
      assert SeenFrom(first, after, i, j, polls, db, event, report);
    }

    lemma AttemptedStays(v: World, w: World, e: string, before: seq<nat>, after: seq<nat>, polls: nat, event: StoredEvent,
                         report: Report)
      requires Concerns(v.db, w.db, e) && v.forwarded <= w.forwarded && before <= after
      requires Attempted(v, before, polls, event, report)
      ensures Attempted(w, after, polls, event, report)
    {
      hide SentOut, CanSign, Concerns, Polled;
      if event.attempts < maxAttempts && (forall latest :: CanSign(event.request, latest)) {
        SentStays(v, w, event.eventId, e, event.attempts + 1, event.request);
        PolledStays(before, after, polls, event, report);
      }
    }

    ghost predicate AllAttempted(w: World, rests: seq<nat>, polls: nat, events: seq<StoredEvent>,
                                 reports: seq<(string, Report)>)
    {
      forall j :: 0 <= j < |reports| && j < |events| ==> Attempted(w, rests, polls, events[j], reports[j].1)
    }

    lemma AllAttemptedStays(v: World, w: World, e: string, before: seq<nat>, after: seq<nat>, polls: nat,
                            events: seq<StoredEvent>, reports: seq<(string, Report)>)
      requires Concerns(v.db, w.db, e) && v.forwarded <= w.forwarded && before <= after
      ensures AllAttempted(v, before, polls, events, reports) ==> AllAttempted(w, after, polls, events, reports)
    {
      hide Attempted, Concerns;
      if AllAttempted(v, before, polls, events, reports) {
        forall j | 0 <= j < |reports| && j < |events|
          ensures Attempted(w, after, polls, events[j], reports[j].1)
        {
          AttemptedStays(v, w, e, before, after, polls, events[j], reports[j].1);
        }
      }
    }

    /** What was seen through has a report, and was polled for. */
    lemma NowPolled(first: nat, i: nat, polls: nat, db: Db, event: StoredEvent, r: Try<Report>)
      requires i <= |network.rests| && event.eventId in db.events && db.events[event.eventId] == event
      ensures SeenThrough(LooksSince(first, i), polls, BegunNow(db, event), event.eventId, event.attempts + 1, r) ==>
                r.Done? && Polled(network.rests, polls, event, r.value)
    {
      hide SeenThrough;
      if SeenThrough(LooksSince(first, i), polls, BegunNow(db, event), event.eventId, event.attempts + 1, r) {
        SeenIsDone(LooksSince(first, i), polls, BegunNow(db, event), event.eventId, event.attempts + 1, r);
        assert network.rests[i..|network.rests|] == network.rests[i..];
        assert SeenFrom(first, network.rests, i, |network.rests|, polls, db, event, r.value);
      }
    }

    lemma SeenIsDone(moments: seq<nat>, polls: nat, prepared: Db, e: string, k: nat, r: Try<Report>)
      requires e in prepared.events && SeenThrough(moments, polls, prepared, e, k, r)
      ensures r.Done?
    {}

    /** Settle the next event listed; the others are left as they were. */
    method SettleNext(events: seq<StoredEvent>, reports: seq<(string, Report)>, polls: nat) returns (r: Try<Report>)
      requires Valid() && |reports| < |events| && AreCurrent(store.Tables(), events, |reports|, PENDING)
      modifies store, network
      ensures Valid() && network.Passes() && AreCurrent(store.Tables(), events, |reports| + 1, PENDING)
      ensures Concerns(old(store.Tables()), store.Tables(), events[|reports|].eventId)
      ensures r.Done? && (store.Steady() || r.value != UNRESOLVED) ==>
                HasStatus(store.Tables(), events[|reports|].eventId, Told(r.value))
      ensures !r.Threw? && KeepsHealthy()
      ensures old(Healthy()) ==> r.Done?
      ensures old(Healthy() && AllAttempted(Now(), network.rests, polls, events, reports)) ==>
                AllAttempted(Now(), network.rests, polls, events, reports + [(events[|reports|].eventId, r.value)])
    {
      hide Sound, IsListable, Nature.Lawful, Concerns, AreCurrent, IsCurrent, Attempted;
      ghost var before, rests := Now(), network.rests;
      NextCurrent(before.db, events, |reports|, PENDING);
      r := SettleOne(events[|reports|], polls);
      StillCurrent(before.db, store.Tables(), events, |reports|, PENDING);
      AllAttemptedStays(before, Now(), events[|reports|].eventId, rests, network.rests, polls, events, reports);
    }

    /** Settle pending events one after another. */
    method SettleEach(events: seq<StoredEvent>, polls: nat) returns (r: Try<seq<(string, Report)>>)
      requires Valid() && AreCurrent(store.Tables(), events, 0, PENDING)
      modifies store, network
      ensures Valid() && network.Passes() && KeepsHealthy()
      ensures r.Done? ==> |r.value| == |events| && AreOf(r.value, events)
      ensures OnlyTouched(old(store.Tables()), store.Tables(), events, |events|)
      ensures r.Done? ==> AsReported(store.Tables(), r.value, store.Steady())
      ensures old(Healthy()) ==> r.Done? && AllAttempted(Now(), network.rests, polls, events, r.value)
    {
      hide Sound, IsListable, Nature.Lawful, AreCurrent, AllAttempted, OnlyTouched, Concerns, AsReported, AreOf;
      var reports: seq<(string, Report)> := [];
      NoneReported(Now(), network.rests, polls, events);
      StartReporting(store.Tables(), events, PENDING);
      for i := 0 to |events|
        invariant Valid() && network.Passes() && KeepsHealthy()
        invariant |reports| == i && AreOf(reports, events)
        invariant OnlyTouched(old(store.Tables()), store.Tables(), events, i)
        invariant AsReported(store.Tables(), reports, store.Steady())
        invariant AreCurrent(store.Tables(), events, i, PENDING)
        invariant old(Healthy()) ==> AllAttempted(Now(), network.rests, polls, events, reports)
      {
        ghost var before := store.Tables();
        var told := SettleNext(events, reports, polls);
        OneTouched(old(store.Tables()), before, store.Tables(), events, i);
        if !told.Done? {
          MoreTouched(old(store.Tables()), store.Tables(), events, i + 1);
          return told.PropagateFailure();
        }
        NextReported(before, store.Tables(), events, reports, told.value, store.Steady());
        reports := reports + [(events[i].eventId, told.value)];
      }
      return Done(reports);
    }

    lemma NoneReported(w: World, rests: seq<nat>, polls: nat, events: seq<StoredEvent>)
      ensures AllAttempted(w, rests, polls, events, [])
    {}

    /**
      Settle up to `limit` pending events. One that throws does not stop the
      rest; without fault, each that can be built and signed is sent.
     */
    method SettleAll(limit: nat, polls: nat) returns (r: Try<seq<(string, Report)>>)
      requires Valid()
      modifies store, network
      ensures Valid() && network.Passes() && KeepsHealthy()
      ensures var events := FirstListed(old(store.Tables()), PENDING, limit);
              && OnlyTouched(old(store.Tables()), store.Tables(), events, |events|)
              && (r.Done? ==> && |r.value| == |events| && AreOf(r.value, events)
                              && AsReported(store.Tables(), r.value, store.Steady()))
              && (old(Healthy()) ==> r.Done? && AllAttempted(Now(), network.rests, polls, events, r.value))
    {
      hide Sound, Nature.Lawful, Listed, AreCurrent, AllAttempted, AreOf, OnlyTouched, AsReported;
      ghost var listed := Listed(store.order, store.events, PENDING);
      ListedEvents(PENDING, if limit < |listed| then limit else |listed|);
      NothingTouched(store.Tables(), listed[..if limit < |listed| then limit else |listed|]);
      var events :- store.EventsWithStatus(PENDING, Some(limit));
      assert events == listed[..if limit < |listed| then limit else |listed|];
      r := SettleEach(events, polls);
    }

    /**
      One round: resolve what is in flight, then settle what is pending. What was
      pending before is settled unless the limit is reached first and, without
      fault, what was under the cap and can be built and signed has been sent.
     */
    method Run(limit: nat, polls: nat) returns (r: Try<(seq<(string, Report)>, seq<(string, Report)>)>)
      requires Valid()
      modifies store, network
      ensures Valid() && network.Passes() && KeepsHealthy()
      ensures r.Done? ==>
                exists middle ::
                  && IsRound(old(store.Tables()), middle, store.Tables(), limit, r.value.0, r.value.1, store.Steady())
                  && (old(Healthy()) ==>
                        AllAttempted(Now(), network.rests, polls, FirstListed(middle, PENDING, limit), r.value.1))
      ensures RoundKeeps(old(store.Tables()), store.Tables())
      ensures r.Done? ==> PendingReached(old(store.Tables()), limit, r.value.1)
      ensures old(Healthy()) ==> r.Done? && AllReported(old(network.now), old(store.Tables()), r.value.0)
      ensures old(Healthy()) ==> PendingSent(Now(), old(store.Tables()), r.value.1)
    {
      hide Sound, Nature.Lawful, Listed, AllReported, AllAttempted, AreOf, OnlyTouched, AsReported, FirstListed,
        PendingReached, PendingSent;
      StoredById();
      var resolution := ResolveAll();
      StoredById();
      ghost var middle := store.Tables();
      NothingTouched(middle, FirstListed(middle, PENDING, limit));
      HalvesKeep(old(store.Tables()), middle, middle, limit);
      var resolved :- resolution;
      var settlement := SettleAll(limit, polls);
      HalvesKeep(old(store.Tables()), middle, store.Tables(), limit);
      var settled :- settlement;
      RoundReaches(old(store.Tables()), middle, limit, resolved, settled);
      if old(Healthy()) {
        RoundSends(old(store.Tables()), middle, limit, polls, resolved, settled);
      }
      return Done((resolved, settled));
    }

    /** Each event is stored under its id, and in the order. */
    lemma StoredById()
      requires Valid()
      ensures IsListable(store.Tables()) && StoredUnderId(store.Tables())
    {
      hide Sound, Nature.Lawful;
      forall e <- store.events
        ensures store.events[e].eventId == e
      {
        TidyEvent(e);
      }
    }

    lemma RoundReaches(before: Db, middle: Db, limit: nat, resolved: seq<(string, Report)>, settled: seq<(string, Report)>)
      requires IsRound(before, middle, store.Tables(), limit, resolved, settled, store.Steady())
      requires StoredUnderId(before)
      ensures PendingReached(before, limit, settled)
    {
      hide IsRound;
      forall e | e in before.events && before.events[e].status == PENDING
        ensures |settled| == limit || IsReportedOn(e, settled)
      {
        PendingIsReached(before, middle, store.Tables(), limit, resolved, settled, store.Steady(), e);
      }
    }

    /** The event pending before the round is the one settled in it. */
    lemma WasAttempted(before: Db, middle: Db, limit: nat, polls: nat, resolved: seq<(string, Report)>,
                       settled: seq<(string, Report)>, e: string, i: nat)
      requires IsRound(before, middle, store.Tables(), limit, resolved, settled, store.Steady())
      requires StoredUnderId(before) && StoredUnderId(middle)
      requires AllAttempted(Now(), network.rests, polls, FirstListed(middle, PENDING, limit), settled)
      requires e in before.events && before.events[e].status == PENDING && i < |settled| && settled[i].0 == e
      ensures Attempted(Now(), network.rests, polls, before.events[e], settled[i].1)
    {
      PendingIsReached(before, middle, store.Tables(), limit, resolved, settled, store.Steady(), e);
      ListedAsStored(middle, PENDING, limit, i);
      hide Attempted, AsReported, OnlyTouched, FirstListed, Listed, SameAttempts, StoredUnderId;
      assert FirstListed(middle, PENDING, limit)[i] == before.events[e];
    }

    lemma RoundSends(before: Db, middle: Db, limit: nat, polls: nat, resolved: seq<(string, Report)>,
                     settled: seq<(string, Report)>)
      requires IsRound(before, middle, store.Tables(), limit, resolved, settled, store.Steady())
      requires StoredUnderId(before) && StoredUnderId(middle)
      requires AllAttempted(Now(), network.rests, polls, FirstListed(middle, PENDING, limit), settled)
      ensures PendingSent(Now(), before, settled)
    {
      hide CanSign, SentOut, Polled, IsRound, StoredUnderId, AllAttempted;
      forall e | e in before.events && before.events[e].status == PENDING && IsReportedOn(e, settled)
                 && before.events[e].attempts < maxAttempts && (forall latest :: CanSign(before.events[e].request, latest))
        ensures SentOut(Now(), e, before.events[e].attempts + 1, before.events[e].request)
      {
        var i :| 0 <= i < |settled| && settled[i].0 == e;
        WasAttempted(before, middle, limit, polls, resolved, settled, e, i);
        UnderId(before, e);
      }
    }

    /** Whatever is pending is reported on, unless the limit is reached. */
    ghost predicate PendingReached(db: Db, limit: nat, settled: seq<(string, Report)>) {
      forall e :: e in db.events && db.events[e].status == PENDING ==> |settled| == limit || IsReportedOn(e, settled)
    }

    /** Of what is pending and reported on, each event under the cap that can be built and signed was sent. */
    ghost predicate PendingSent(w: World, db: Db, settled: seq<(string, Report)>) {
      forall e :: e in db.events && db.events[e].status == PENDING && IsReportedOn(e, settled)
                  && db.events[e].attempts < maxAttempts && (forall latest :: CanSign(db.events[e].request, latest)) ==>
        SentOut(w, e, db.events[e].attempts + 1, db.events[e].request)
    }

    /** Landing `j` is the one settlement of the event there ever was, it is the row's, and it paid what was stored. */
    ghost predicate IsPaidBy(e: string, row: SettlementRow, j: nat)
      requires e in store.events
      reads store, network
    {
      && row in store.settlements && row.eventId == e && StoredFor(store.Tables(), e, row.record)
      && TellsPayouts(row.record.payouts, store.events[e].request, row.record.amountAtomic * row.record.scale,
                      store.events[e].beneficiaryIds)
      && j < |network.Now().landed|
      && Proves(network.nature.client, network.Now().landed[j], row.record, store.events[e].request)
      && PaidAsBooked(network.nature.client, network.Now().landed[j], row.record, store.events[e].request)
      && var client := network.nature.client;
         forall i :: 0 <= i < |network.Now().landed| ==>
           CreatesRecord(client.env, network.Now().landed[i], row.record.namespace, client.eventSeed(e)) ==> i == j
    }

    /**
      What the invariant promises, whenever anyone looks: of a pending event,
      nothing sent for it can still land or has landed successfully; of a paid
      one, exactly one transaction ever settled it, as stored; of an incident,
      that the transaction that settled it differs from everything stored, and
      is not the worker's own unless its amounts were too large to state; and of
      the books, that nothing settled is missing from them but what repeats.
     */
    lemma Promises(e: string)
      requires Valid() && e in store.events
      ensures store.events[e].attempts <= maxAttempts && Numbered(store.Tables(), e, store.events[e].attempts)
      ensures store.events[e].status == PENDING ==>
                forall tx :: tx in network.forwarded && NamesEvent(network.nature.client, tx, e) ==>
                  !CanLand(network.Now(), tx) && !LandedOk(network.Now(), tx)
      ensures store.events[e].status == PAID ==> exists row, j: nat :: IsPaidBy(e, row, j)
      ensures store.events[e].status == INCIDENT ==>
                && (exists j: nat, namespace: Key :: IsContradictedBy(e, j, namespace))
                && forall k: nat, j: nat :: IsOwnLanding(e, k, j) ==> !OwnFits(e, k, j)
      ensures BooksBalance(store.Tables())
    {
      hide Sound, IsListable, Nature.Lawful, PaidAsBooked, TellsPayouts, BooksBalance, NamesEvent, CanLand, LandedOk,
        Proves, ChainInv, CreatesRecord, StoredFor, Later, ClientValid;
      TidyEvent(e);
      TidyCap(e);
      ClientIsValid();
      TimePasses(network.nature, network.now, network.now);
      BooksAreKept();
      if store.events[e].status == INCIDENT {
        IncidentIsKnown(e);
        forall k: nat, j: nat | IsOwnLanding(e, k, j)
          ensures !OwnFits(e, k, j)
        {
          OwnSettlementNoIncident(Config(), Now(), e, k, j);
        }
      }
      hide EventTidy, Numbered, IsContradictedBy;
      if store.events[e].status == PENDING {
        forall tx | tx in network.forwarded && NamesEvent(network.nature.client, tx, e)
          ensures !CanLand(network.Now(), tx) && !LandedOk(network.Now(), tx)
        {
          PendingIsSafe(Config(), Now(), e, tx);
        }
      }
      if store.events[e].status == PAID {
        var row, j := PaidOnce(Config(), Now(), e);
        assert IsPaidBy(e, row, j);
      }
    }

    /** Landing `j` created the event's record, and differs from everything it was to be settled as. */
    ghost predicate IsContradictedBy(e: string, j: nat, namespace: Key)
      requires e in store.events
      reads store, network
    {
      var client := network.nature.client;
      && j < |network.Now().landed|
      && CreatesRecord(client.env, network.Now().landed[j], namespace, client.eventSeed(e))
      && (forall k: nat :: (e, k) in store.attempts ==>
            && store.attempts[(e, k)].params.namespace == namespace
            && MismatchesWith(client, network.Now().landed[j], StoredOf(store.attempts[(e, k)])))
      && (store.events[e].attempts == 0 ==>
            exists params: Params :: params.namespace == namespace
              && MismatchesWith(client, network.Now().landed[j], Stored(store.events[e].request, params)))
    }

    /** Attempt `k` of the event landed, as `j`, and went through. */
    ghost predicate IsOwnLanding(e: string, k: nat, j: nat)
      reads store, network
    {
      && (e, k) in store.attempts && store.attempts[(e, k)].raw.Some?
      && j < |network.Now().landed| && network.Now().landed[j].tx == store.attempts[(e, k)].raw.value
      && network.Now().landed[j].outcome.Some?
    }

    /** What attempt `k` moved when it landed as `j` fits JSON numbers. */
    ghost predicate OwnFits(e: string, k: nat, j: nat)
      requires e in store.events && (e, k) in store.attempts && j < |network.Now().landed|
      reads store, network
    {
      var params := store.attempts[(e, k)].params;
      FitsJson(network.nature.client, network.Now().landed[j].before, store.events[e].request, params.namespace, params.scale)
    }

    lemma IncidentIsKnown(e: string)
      requires Valid() && e in store.events && store.events[e].status == INCIDENT
      ensures exists j: nat, namespace: Key :: IsContradictedBy(e, j, namespace)
    {
      RowsOf(e);
      IncidentSaid(e);
      hide Sound, IsListable, Nature.Lawful, CreatesRecord, MismatchesWith, Contradicts;
      var j: nat, namespace: Key :|
        j < |network.Now().landed| && IsIncident(Config(), store.Tables(), network.Now().landed[j], e, namespace);
      forall k: nat | (e, k) in store.attempts
        ensures store.attempts[(e, k)].params.namespace == namespace
        ensures MismatchesWith(network.nature.client, network.Now().landed[j], StoredOf(store.attempts[(e, k)]))
      {
        ContradictedInTruth(network.nature.client, network.Now().landed[j], StoredOf(store.attempts[(e, k)]));
      }
      if store.events[e].attempts == 0 {
        var params: Params :|
          params.namespace == namespace
          && Contradicts(network.nature.client, network.Now().landed[j], store.events[e].request, params);
        ContradictedInTruth(network.nature.client, network.Now().landed[j], Stored(store.events[e].request, params));
      }
      assert IsContradictedBy(e, j, namespace);
    }

    lemma IncidentSaid(e: string)
      requires Valid() && e in store.events && store.events[e].status == INCIDENT
      ensures exists j, namespace: Key :: 0 <= j < |network.Now().landed|
                && IsIncident(Config(), store.Tables(), network.Now().landed[j], e, namespace)
    {
      hide IsIncident;
    }

    lemma TidyCap(e: string)
      requires e in store.events && EventTidy(Config(), store.Tables(), e)
      ensures store.events[e].attempts <= maxAttempts
    {}

    lemma BooksAreKept()
      requires Valid()
      ensures BooksBalance(store.Tables())
    {
      hide BooksInv, BooksBalance, Nature.Lawful, IsListable;
      BooksAreBalanced(store.Tables());
    }
  }

  /** A worker over empty tables, on a lawful cluster that has not heard of it. */
  method Open(nature: Nature, fates: nat -> Fate, payer: Key, authority: Key, namespace: Key, scale: int, second: bool,
              maxAttempts: nat, sign: (seq<TxInstruction>, Blockhash) -> Option<string>) returns (worker: SettlementWorker)
    requires nature.Lawful()
    ensures fresh(worker) && fresh(worker.store) && fresh(worker.network) && worker.Valid()
    ensures worker.network.nature == nature && worker.store.fates == fates && worker.store.Tables() == EMPTY
    ensures worker.Current() == Params(nature.client.env.programId, namespace, scale, payer, authority)
  {
    var store := new Store(fates);
    var network := new Network(nature);
    hide Sound;
    SoundAtFirst(Rules(nature.client, maxAttempts), network.Now());
    worker := new SettlementWorker(store, network, payer, authority, namespace, scale, second, maxAttempts, sign);
  }

  /** What a studio asks of its worker. */
  datatype Command =
    | Enqueue(request: Request, beneficiaryIds: map<string, string>)
    | Work(limit: nat, polls: nat)
    | LookAgain(eventId: string)

  /** How a command ended. */
  datatype Outcome =
    | Queued(added: Try<Enqueued>)
    | Worked(round: Try<(seq<(string, Report)>, seq<(string, Report)>)>)
    | Seen(report: Try<Report>)

  /** An event is added once; the same again changes nothing, and another under its id is refused. */
  predicate Queues(before: Db, after: Db, request: Request, beneficiaryIds: map<string, string>, added: Try<Enqueued>,
                   steady: bool)
  {
    var e := request.eventId;
    && after == (if added == Done(ADDED) then Added(before, request, beneficiaryIds) else before)
    && (added == Done(ADDED) ==> e !in before.events)
    && (added == Done(UNCHANGED) ==>
          e in before.events && before.events[e].request == request && before.events[e].beneficiaryIds == beneficiaryIds)
    && (steady && !added.Done? ==>
          && added.Threw? && e in before.events
          && (before.events[e].request != request || before.events[e].beneficiaryIds != beneficiaryIds))
  }

  /** What one command makes of the tables, and how it ends. */
  ghost predicate IsStep(before: Db, after: Db, command: Command, outcome: Outcome, steady: bool, healthy: bool) {
    match command
    case Enqueue(request, beneficiaryIds) =>
      outcome.Queued? && Queues(before, after, request, beneficiaryIds, outcome.added, steady)
    case Work(limit, _) =>
      && outcome.Worked? && RoundKeeps(before, after) && (healthy ==> outcome.round.Done?)
      && (outcome.round.Done? ==>
            exists middle ::
              IsRound(before, middle, after, limit, outcome.round.value.0, outcome.round.value.1, steady))
    case LookAgain(e) =>
      && outcome.Seen? && Concerns(before, after, e) && (healthy ==> !outcome.report.Crashed?)
      && (e in before.events && before.events[e].status == PAID ==> after == before)
      && (outcome.report.Done? ==> HasStatus(after, e, Told(outcome.report.value)))
  }

  /** No event is lost or asked to pay anything else, what was paid stays so, and no ledger row is lost. */
  ghost predicate HistoryKept(before: Db, after: Db) {
    && (forall e :: e in before.events ==> e in after.events && KeepsEvent(before.events[e], after.events[e]))
    && (forall e :: e in before.events && before.events[e].status == PAID ==> IsUntouched(before, after, e))
    && LedgerGrows(before, after)
  }

  /** Every event is one there was, or one of the first `n` commands asked for. */
  ghost predicate AskedFor(before: Db, after: Db, commands: seq<Command>, n: nat)
    requires n <= |commands|
  {
    forall e :: e in after.events && e !in before.events ==> WasAsked(after.events[e], commands, n)
  }

  ghost predicate WasAsked(event: StoredEvent, commands: seq<Command>, n: nat)
    requires n <= |commands|
  {
    exists i :: 0 <= i < n && commands[i] == Enqueue(event.request, event.beneficiaryIds)
  }

  /** What the first `n` commands asked to be paid is there. */
  ghost predicate AllQueued(db: Db, commands: seq<Command>, n: nat)
    requires n <= |commands|
  {
    forall i :: 0 <= i < n && commands[i].Enqueue? ==> commands[i].request.eventId in db.events
  }

  lemma StepKeeps(before: Db, after: Db, command: Command, outcome: Outcome, steady: bool, healthy: bool)
    requires IsStep(before, after, command, outcome, steady, healthy)
    ensures HistoryKept(before, after)
    ensures forall e :: e in after.events && e !in before.events ==>
              command == Enqueue(after.events[e].request, after.events[e].beneficiaryIds)
    ensures steady && command.Enqueue? ==> command.request.eventId in after.events
  {
    hide IsRound, RowsKept, HasStatus;
    if command.Enqueue? {
      match outcome.added {
        case Done(added) => assert added == ADDED || added == UNCHANGED;
        case _ =>
      }
    }
  }

  lemma KeptTwice(a: Db, b: Db, c: Db)
    requires HistoryKept(a, b) && HistoryKept(b, c)
    ensures HistoryKept(a, c)
  {
    hide SameAttempts;
    forall e | e in a.events && a.events[e].status == PAID
      ensures IsUntouched(a, c, e)
    {
      UntouchedTwice(a, b, c, e);
    }
  }

  lemma AskedOneMore(first: Db, before: Db, after: Db, commands: seq<Command>, n: nat)
    requires n < |commands| && AskedFor(first, before, commands, n) && HistoryKept(before, after)
    requires forall e :: e in after.events && e !in before.events ==>
               commands[n] == Enqueue(after.events[e].request, after.events[e].beneficiaryIds)
    ensures AskedFor(first, after, commands, n + 1)
  {
    hide IsUntouched, LedgerGrows;
    forall e | e in after.events && e !in first.events
      ensures WasAsked(after.events[e], commands, n + 1)
    {
      if e in before.events {
        assert WasAsked(before.events[e], commands, n) && KeepsEvent(before.events[e], after.events[e]);
      }
    }
  }

  /**
    Any commands in any order, any time apart, each going through, throwing, or
    dying half way and being followed by the next: the invariant holds after
    each, and with it what `Promises` says of every event. Each command makes
    of the tables what it should, nothing is settled that was not asked for,
    and what was paid stays so.
   */
  method Serve(worker: SettlementWorker, commands: seq<Command>) returns (outcomes: seq<Outcome>, ghost states: seq<Db>)
    requires worker.Valid()
    modifies worker.store, worker.network
    ensures worker.Valid()
    ensures |outcomes| == |commands| && |states| == |commands| + 1
    ensures states[0] == old(worker.store.Tables()) && states[|commands|] == worker.store.Tables()
    ensures forall i :: 0 <= i < |commands| ==>
              IsStep(states[i], states[i + 1], commands[i], outcomes[i], worker.store.Steady(), old(worker.Healthy()))
    ensures HistoryKept(old(worker.store.Tables()), worker.store.Tables())
    ensures AskedFor(old(worker.store.Tables()), worker.store.Tables(), commands, |commands|)
    ensures worker.store.Steady() ==> AllQueued(worker.store.Tables(), commands, |commands|)
  {
    hide Sound, IsListable, Nature.Lawful, IsStep, HistoryKept, AskedFor;
    ghost var steady, healthy := worker.store.Steady(), worker.Healthy();
    outcomes, states := [], [worker.store.Tables()];
    NothingYet(worker.store.Tables(), commands);
    for i := 0 to |commands|
      invariant worker.Valid() && (healthy ==> worker.Healthy())
      invariant |outcomes| == i && |states| == i + 1
      invariant states[0] == old(worker.store.Tables()) && states[i] == worker.store.Tables()
      invariant forall j :: 0 <= j < i ==> IsStep(states[j], states[j + 1], commands[j], outcomes[j], steady, healthy)
      invariant HistoryKept(states[0], states[i]) && AskedFor(states[0], states[i], commands, i)
      invariant steady ==> AllQueued(states[i], commands, i)
    {
      worker.Rest();
      var outcome := Obey(worker, commands[i], healthy);
      ghost var before, after := states[i], worker.store.Tables();
      StepKeeps(before, after, commands[i], outcome, steady, healthy);
      AskedOneMore(states[0], before, after, commands, i);
      QueuedStay(before, after, commands, i);
      KeptTwice(states[0], before, after);
      outcomes, states := outcomes + [outcome], states + [after];
    }
  }

  lemma NothingYet(db: Db, commands: seq<Command>)
    ensures HistoryKept(db, db) && AskedFor(db, db, commands, 0) && AllQueued(db, commands, 0)
  {}

  lemma QueuedStay(before: Db, after: Db, commands: seq<Command>, n: nat)
    requires n <= |commands| && HistoryKept(before, after)
    ensures AllQueued(before, commands, n) ==> AllQueued(after, commands, n)
  {
    hide IsUntouched, LedgerGrows;
  }

  /** Carry out one command. */
  method Obey(worker: SettlementWorker, command: Command, ghost healthy: bool) returns (outcome: Outcome)
    requires worker.Valid() && (healthy ==> worker.Healthy())
    modifies worker.store, worker.network
    ensures worker.Valid() && (healthy ==> worker.Healthy())
    ensures IsStep(old(worker.store.Tables()), worker.store.Tables(), command, outcome, worker.store.Steady(), healthy)
  {
    hide Sound, IsListable, Nature.Lawful, IsRound, Concerns, RoundKeeps, Queues;
    match command {
      case Enqueue(request, beneficiaryIds) =>
        var added := Add(worker, request, beneficiaryIds);
        outcome := Queued(added);
      case Work(limit, polls) =>
        var round := worker.Run(limit, polls);
        outcome := Worked(round);
      case LookAgain(eventId) =>
        var report := worker.Recheck(eventId);
        outcome := Seen(report);
    }
  }

  /** Ask for an event to be settled. */
  method Add(worker: SettlementWorker, request: Request, beneficiaryIds: map<string, string>) returns (r: Try<Enqueued>)
    requires worker.Valid()
    modifies worker.store
    ensures worker.Valid()
    ensures Queues(old(worker.store.Tables()), worker.store.Tables(), request, beneficiaryIds, r, worker.store.Steady())
  {
    hide Sound, IsListable, Nature.Lawful, Added;
    if request.eventId !in worker.store.events {
      EnqueueKeeps(worker.Config(), worker.Now(), request, beneficiaryIds);
    }
    r := worker.store.Enqueue(request, beneficiaryIds);
  }
}

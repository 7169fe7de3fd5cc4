/** The cluster as the worker sees it: through nodes that lag, forget, refuse and fail. */
module Networks {
  import opened Basics
  import opened Program
  import opened Runs
  import opened Text
  import opened Evidence
  import opened Cluster
  import opened EvidenceLaws
  import opened Search
  import opened SearchLaws
  import opened Stores

  datatype Provider = Primary | Second

  datatype Level = Processed | Confirmed | Finalized

  datatype Status = Status(level: Level, failed: bool)

  datatype Blockhash = Blockhash(hash: string, lastValidBlockHeight: nat)

  datatype Sent = Passed | SimulationFailed

  /**
    What befalls one call: whether it goes through, how long it takes, how far
    the node lags behind, and everything else the node is free to choose.
   */
  datatype Answer = Answer(fate: Fate, elapsed: nat, lag: nat, blank: bool, level: Level, refused: bool,
                           blockhash: Blockhash, cosigners: seq<string>, slot: nat, blockTime: Option<int>,
                           inner: seq<Group>)

  predicate IsPrompt(answer: Answer) {
    && answer.fate == Goes && answer.elapsed == 0 && answer.lag == 0
    && !answer.blank && !answer.refused && answer.level == Finalized && answer.blockTime.Some?
  }

  /** Where a signature landed. */
  function LandingOf(landed: seq<Landing>, signature: string): (i: Option<nat>)
    ensures i.Some? ==> i.value < |landed| && landed[i.value].tx.signature == signature
    ensures i.None? ==> forall j :: 0 <= j < |landed| ==> landed[j].tx.signature != signature
  {
    if landed == [] then None
    else if landed[|landed| - 1].tx.signature == signature then Some(|landed| - 1)
    else LandingOf(landed[..|landed| - 1], signature)
  }

  /** What a node that withholds nothing answers about a signature. */
  function StatusIn(c: Chain, signature: string): Option<Status> {
    var i := LandingOf(c.landed, signature);
    if i.None? then None else Some(Status(Finalized, c.landed[i.value].outcome.None?))
  }

  /** What a node tells of a landed transaction, but for what it may choose. */
  function Rendered(client: Client, landing: Landing, answer: Answer): (tx: RpcTransaction)
    ensures Honest(client, tx, landing)
  {
    RpcTransaction([landing.tx.signature] + answer.cosigners, answer.slot, answer.blockTime, landing.outcome.Some?,
                   RenderAll(client, landing.tx.instructions),
                   if landing.outcome.Some? then RenderGroups(client.env, landing.outcome.value.logs) else answer.inner)
  }

  /** The world outside: the cluster at every moment, each node's behaviour at every call, and how long each wait is. */
  datatype Nature = Nature(client: Client, timeline: nat -> Chain, answers: nat -> Answer, waits: nat -> nat,
                           endpoint: (nat, Key) -> Endpoint, archive: nat -> Archive)
  {
    /**
      The cluster keeps its rules, and nodes do not lie about what landed: a
      record's history lists landed transactions, and answers about them are
      what they did. Histories may be cut short and answers withheld.
     */
    ghost predicate Lawful() {
      && ClientValid(client)
      && History(client.env, timeline)
      && (forall i: nat, j :: 0 <= j < |timeline(i).landed| ==>
            && WellTyped(client, timeline(i).landed[j].tx.instructions)
            && NUL !in timeline(i).landed[j].tx.signature)
      && (forall view: nat, record: Key ::
            && Truthful(endpoint(view, record), archive(view))
            && HonestHistory(timeline(view), endpoint(view, record).history))
      && (forall view: nat :: HonestArchive(client, timeline(view), archive(view)))
    }

    /** From call `n` on, every call goes through at once, on a node that has caught up and withholds nothing. */
    ghost predicate Prompt(n: nat) {
      forall i: nat :: i >= n ==> IsPrompt(answers(i))
    }
  }

  /** Any two moments of a lawful run. */
  lemma TimePasses(nature: Nature, i: nat, j: nat)
    requires nature.Lawful() && i <= j
    ensures ChainInv(nature.client.env, nature.timeline(i)) && ChainInv(nature.client.env, nature.timeline(j))
    ensures Later(nature.client.env, nature.timeline(i), nature.timeline(j))
  {
    HistoryInv(nature.client.env, nature.timeline, i);
    HistoryInv(nature.client.env, nature.timeline, j);
    HistoryLater(nature.client.env, nature.timeline, i, j);
  }

  // ----- Nodes that withhold nothing -----

  const PLAIN: Answer := Answer(Goes, 0, 0, false, Finalized, false, Blockhash("", 0), [], 0, Some(0), [])

  /** Every landed transaction, as it is told in full. */
  function ArchiveOf(client: Client, landed: seq<Landing>): Archive {
    if landed == [] then map[]
    else
      var last := landed[|landed| - 1];
      ArchiveOf(client, landed[..|landed| - 1])[last.tx.signature := Rendered(client, last, PLAIN)]
  }

  ghost predicate LandOnce(landed: seq<Landing>) {
    forall i, j :: 0 <= i < j < |landed| ==> landed[i].tx.signature != landed[j].tx.signature
  }

  lemma {:induction false} ArchiveHolds(client: Client, landed: seq<Landing>)
    requires LandOnce(landed)
    ensures forall j :: 0 <= j < |landed| ==>
              && landed[j].tx.signature in ArchiveOf(client, landed)
              && ArchiveOf(client, landed)[landed[j].tx.signature] == Rendered(client, landed[j], PLAIN)
    ensures forall s <- ArchiveOf(client, landed) :: exists j :: 0 <= j < |landed| && landed[j].tx.signature == s
  {
    hide Rendered;
    if landed != [] {
      var n := |landed| - 1;
      var front := ArchiveOf(client, landed[..n]);
      assert ArchiveOf(client, landed) == front[landed[n].tx.signature := Rendered(client, landed[n], PLAIN)];
      hide ArchiveOf;
      assert forall j :: 0 <= j < n ==> landed[..n][j] == landed[j];
      ArchiveHolds(client, landed[..n]);
      forall s <- ArchiveOf(client, landed)
        ensures exists j :: 0 <= j < |landed| && landed[j].tx.signature == s
      {
        if s != landed[n].tx.signature {
          assert s in front;
          var j :| 0 <= j < n && landed[..n][j].tx.signature == s;
          assert landed[j].tx.signature == s;
        }
      }
    }
  }

  /** A node that lists everything landed, newest first, and answers every request. */
  function EndpointOf(client: Client, landed: seq<Landing>): Endpoint {
    var archive := ArchiveOf(client, landed);
    var n := |landed|;
    Endpoint(seq(n, i requires 0 <= i < n => Entry(landed[n - 1 - i].tx.signature, landed[n - 1 - i].outcome.None?)),
             (page: nat) => true,
             (call: nat, asked: seq<string>) => Refused,
             (call: nat, asked: string) => if asked in archive then Got(archive[asked]) else Missing)
  }

  lemma ToldTruly(client: Client, c: Chain)
    requires LandOnce(c.landed)
    ensures Truthful(EndpointOf(client, c.landed), ArchiveOf(client, c.landed))
  {
    hide ArchiveOf, Honest;
    ArchiveHolds(client, c.landed);
    var e, archive, n := EndpointOf(client, c.landed), ArchiveOf(client, c.landed), |c.landed|;
    forall s: string | s in archive
      ensures Names([Some(archive[s])], archive)
    {
      var j :| 0 <= j < n && c.landed[j].tx.signature == s;
      assert archive[s].signatures == [s];
    }
    forall i, j | 0 <= i < j < n
      ensures e.history[i].signature != e.history[j].signature
    {
      assert c.landed[n - 1 - j].tx.signature != c.landed[n - 1 - i].tx.signature;
    }
  }

  lemma ToldAlone(client: Client, c: Chain)
    requires LandOnce(c.landed)
    ensures Reliable(EndpointOf(client, c.landed), ArchiveOf(client, c.landed))
  {
    ArchiveHolds(client, c.landed);
    hide ArchiveOf;
    var e, archive, n := EndpointOf(client, c.landed), ArchiveOf(client, c.landed), |c.landed|;
    forall i | 0 <= i < n
      ensures AnswersAlone(e, archive, e.history[i].signature)
    {
      assert e.history[i].signature == c.landed[n - 1 - i].tx.signature;
    }
  }

  lemma ToldInFull(client: Client, c: Chain, record: Key)
    ensures HonestHistory(c, EndpointOf(client, c.landed).history)
    ensures CompleteHistory(c, record, EndpointOf(client, c.landed).history)
  {
    ListedInTurn(client, c.landed);
    InTurnIsComplete(c, record, EndpointOf(client, c.landed).history);
  }

  lemma InTurnIsComplete(c: Chain, record: Key, history: seq<Entry>)
    requires |history| == |c.landed|
    requires forall i :: 0 <= i < |history| ==> IsEntryOf(history[i], c.landed[|history| - 1 - i])
    ensures HonestHistory(c, history) && CompleteHistory(c, record, history)
  {
    var n := |history|;
    forall i | 0 <= i < n
      ensures HasEntry(c, history[i])
    {
      assert IsEntryOf(history[i], c.landed[n - 1 - i]);
    }
    forall j | 0 <= j < n
      ensures exists i :: 0 <= i < n && IsEntryOf(history[i], c.landed[j])
    {
      var i := n - 1 - j;
      assert IsEntryOf(history[i], c.landed[n - 1 - i]);
    }
  }

  lemma ListedInTurn(client: Client, landed: seq<Landing>)
    ensures var history, n := EndpointOf(client, landed).history, |landed|;
            |history| == n && forall i :: 0 <= i < n ==> IsEntryOf(history[i], landed[n - 1 - i])
  {
    hide ArchiveOf;
  }

  lemma ToldHonestly(client: Client, c: Chain)
    requires LandOnce(c.landed)
    ensures HonestArchive(client, c, ArchiveOf(client, c.landed))
  {
    ArchiveHolds(client, c.landed);
    hide ArchiveOf, Honest;
  }

  lemma InvLandsOnce(env: Env, c: Chain)
    requires ChainInv(env, c)
    ensures LandOnce(c.landed)
  {}

  /** The cluster of some history, told by nodes that withhold nothing. */
  function Forthcoming(client: Client, timeline: nat -> Chain): Nature {
    Nature(client, timeline, (i: nat) => PLAIN, (i: nat) => 1,
           (view: nat, record: Key) => EndpointOf(client, timeline(view).landed),
           (view: nat) => ArchiveOf(client, timeline(view).landed))
  }

  lemma EnvIsValid(client: Client)
    requires ClientValid(client)
    ensures client.env.Valid()
  {}

  /** Every history the cluster may have can be told so, by rules and without fault. */
  lemma ForthcomingIsLawful(client: Client, timeline: nat -> Chain)
    requires ClientValid(client) && History(client.env, timeline)
    requires forall i: nat, j :: 0 <= j < |timeline(i).landed| ==>
               && WellTyped(client, timeline(i).landed[j].tx.instructions)
               && NUL !in timeline(i).landed[j].tx.signature
    ensures Forthcoming(client, timeline).Lawful() && Forthcoming(client, timeline).Prompt(0)
    ensures forall view: nat, record: Key ::
              var nature := Forthcoming(client, timeline);
              && Reliable(nature.endpoint(view, record), nature.archive(view))
              && CompleteHistory(timeline(view), record, nature.endpoint(view, record).history)
  {
    hide History, WellTyped, EndpointOf, ArchiveOf, Truthful, Reliable, HonestHistory, CompleteHistory, HonestArchive,
      ChainInv, ClientValid;
    EnvIsValid(client);
    var nature := Forthcoming(client, timeline);
    forall view: nat, record: Key
      ensures Truthful(nature.endpoint(view, record), nature.archive(view))
      ensures Reliable(nature.endpoint(view, record), nature.archive(view))
      ensures HonestHistory(timeline(view), nature.endpoint(view, record).history)
      ensures CompleteHistory(timeline(view), record, nature.endpoint(view, record).history)
    {
      HistoryInv(client.env, timeline, view);
      InvLandsOnce(client.env, timeline(view));
      ToldTruly(client, timeline(view));
      ToldAlone(client, timeline(view));
      ToldInFull(client, timeline(view), record);
    }
    forall view: nat
      ensures HonestArchive(client, timeline(view), nature.archive(view))
    {
      HistoryInv(client.env, timeline, view);
      InvLandsOnce(client.env, timeline(view));
      ToldHonestly(client, timeline(view));
    }
  }

  /** A node's answer about a transaction. */
  datatype Telling = Telling(provider: Provider, signature: string, answer: RpcTransaction)

  /** A transaction handed to a node. */
  datatype Sending = Sending(tx: Tx, preflight: bool)

  class Network {
    const nature: Nature
    var calls: nat
    var now: nat
    var seenPrimary: nat
    var seenSecond: nat
    /** Everything handed to a node that may have passed it on. */
    ghost var forwarded: set<Tx>
    /** Everything sent, every transaction told, and each moment at which a wait ended. */
    ghost var sends: seq<Sending>
    ghost var told: seq<Telling>
    ghost var rests: seq<nat>

    constructor (nature: Nature)
      requires nature.Lawful()
      ensures Valid() && forwarded == {} && this.nature == nature
    {
      this.nature := nature;
      calls, now, seenPrimary, seenSecond := 0, 0, 0, 0;
      forwarded, sends, told, rests := {}, [], [], [];
    }

    function Seen(provider: Provider): nat
      reads this
    {
      if provider.Primary? then seenPrimary else seenSecond
    }

    ghost predicate Valid()
      reads this
    {
      nature.Lawful() && seenPrimary <= now && seenSecond <= now
    }

    /** The chain as the provider last saw it. */
    function View(provider: Provider): Chain
      reads this
    {
      nature.timeline(Seen(provider))
    }

    /** The chain as it is. */
    function Now(): Chain
      reads this
    {
      nature.timeline(now)
    }

    /** Time only passes, a provider's view never goes back, and nothing sent is unsent. */
    twostate predicate Passes()
      reads this
    {
      && Valid()
      && old(calls) <= calls && old(now) <= now && old(seenPrimary) <= seenPrimary && old(seenSecond) <= seenSecond
      && old(forwarded) <= forwarded && old(sends) <= sends && old(told) <= told && old(rests) <= rests
    }

    /** Only that provider's view moves on; and a prompt answer is as of now. */
    twostate predicate Answers(provider: Provider)
      reads this
    {
      && (provider.Primary? ==> seenSecond == old(seenSecond))
      && (provider.Second? ==> seenPrimary == old(seenPrimary))
      && (nature.Prompt(old(calls)) ==> nature.Prompt(calls) && now == old(now) && Seen(provider) == now)
    }

    /** One call: time passes, and the provider may catch up some of the way. */
    method Reach(provider: Provider) returns (r: Try<Answer>)
      requires Valid()
      modifies this`calls, this`now, this`seenPrimary, this`seenSecond
      ensures Passes() && Answers(provider)
      ensures nature.Prompt(old(calls)) ==> r.Done? && IsPrompt(r.value)
    {
      var answer := nature.answers(calls);
      calls := calls + 1;
      now := now + answer.elapsed;
      var seen := Seen(provider);
      var view := if seen + answer.lag < now then now - answer.lag else seen;
      if provider.Primary? {
        seenPrimary := view;
      } else {
        seenSecond := view;
      }
      match answer.fate {
        case Goes => return Done(answer);
        case Throws => return Threw;
        case Dies => return Crashed;
      }
    }

    /** Let time pass, as long as it may. */
    method Wait()
      requires Valid()
      modifies this`calls, this`now, this`rests
      ensures Passes() && seenPrimary == old(seenPrimary) && seenSecond == old(seenSecond)
      ensures rests == old(rests) + [now]
      ensures nature.Prompt(old(calls)) ==> nature.Prompt(calls)
    {
      now := now + nature.waits(calls);
      calls := calls + 1;
      rests := rests + [now];
    }

    method GetLatestBlockhash() returns (r: Try<Blockhash>)
      requires Valid()
      modifies this`calls, this`now, this`seenPrimary, this`seenSecond
      ensures Passes() && Answers(Primary)
      ensures nature.Prompt(old(calls)) ==> r.Done?
    {
      var answer :- Reach(Primary);
      return Done(answer.blockhash);
    }

    method GetBlockHeight() returns (r: Try<nat>)
      requires Valid()
      modifies this`calls, this`now, this`seenPrimary, this`seenSecond
      ensures Passes() && Answers(Primary)
      ensures nature.Prompt(old(calls)) ==> r.Done?
      ensures r.Done? ==> r.value == View(Primary).height
    {
      var _ :- Reach(Primary);
      return Done(View(Primary).height);
    }

    /** A status the node may not have; one short of confirmed says nothing. */
    method GetSignatureStatus(signature: string) returns (r: Try<Option<Status>>)
      requires Valid()
      modifies this`calls, this`now, this`seenPrimary, this`seenSecond
      ensures Passes() && Answers(Primary)
      ensures nature.Prompt(old(calls)) ==> r == Done(StatusIn(Now(), signature))
      ensures r.Done? && r.value.Some? && !r.value.value.level.Processed? ==>
                exists i :: 0 <= i < |View(Primary).landed| && View(Primary).landed[i].tx.signature == signature
                            && r.value.value.failed == View(Primary).landed[i].outcome.None?
    {
      var answer :- Reach(Primary);
      var i := LandingOf(View(Primary).landed, signature);
      if answer.blank {
        return Done(None);
      }
      if answer.level.Processed? {
        return Done(Some(Status(Processed, answer.refused)));
      }
      if i.None? {
        return Done(None);
      }
      return Done(Some(Status(answer.level, View(Primary).landed[i.value].outcome.None?)));
    }

    /**
      Hand a transaction to a node. Only a failed simulation says that it went
      no further; accepted, it may still be lost, and any other failure leaves
      it unknown.
     */
    method Send(tx: Tx, preflight: bool) returns (r: Try<Sent>)
      requires Valid()
      modifies this`calls, this`now, this`seenPrimary, this`seenSecond, this`forwarded, this`sends
      ensures Passes() && Answers(Primary)
      ensures nature.Prompt(old(calls)) ==> r == Done(Passed)
      ensures sends == old(sends) + [Sending(tx, preflight)]
      ensures r != Done(SimulationFailed) ==> tx in forwarded
      ensures forwarded == old(forwarded) || forwarded == old(forwarded) + {tx}
      ensures r == Done(SimulationFailed) ==> preflight && forwarded == old(forwarded)
    {
      var reached := Reach(Primary);
      sends := sends + [Sending(tx, preflight)];
      if preflight && reached.Done? && reached.value.refused {
        return Done(SimulationFailed);
      }
      forwarded := forwarded + {tx};
      return match reached case Done(_) => Done(Passed) case Threw => Threw case Crashed => Crashed;
    }

    method GetAccount(provider: Provider, key: Key) returns (r: Try<Account>)
      requires Valid()
      modifies this`calls, this`now, this`seenPrimary, this`seenSecond
      ensures Passes() && Answers(provider)
      ensures nature.Prompt(old(calls)) ==> r.Done?
      ensures r.Done? ==> r.value == At(View(provider).accounts, key)
    {
      var _ :- Reach(provider);
      return Done(At(View(provider).accounts, key));
    }

    /** A finalized transaction, if the node has it yet. */
    method GetTransaction(provider: Provider, signature: string) returns (r: Try<Option<RpcTransaction>>)
      requires Valid()
      modifies this`calls, this`now, this`seenPrimary, this`seenSecond, this`told
      ensures Passes() && Answers(provider)
      ensures nature.Prompt(old(calls)) ==>
                && r.Done? && (r.value.None? <==> LandingOf(Now().landed, signature).None?)
                && (r.value.Some? ==> r.value.value.blockTime.Some?)
      ensures r.Done? && r.value.Some? ==>
                exists i :: 0 <= i < |View(provider).landed| && View(provider).landed[i].tx.signature == signature
                            && Honest(nature.client, r.value.value, View(provider).landed[i])
      ensures told == if r.Done? && r.value.Some? then old(told) + [Telling(provider, signature, r.value.value)]
                      else old(told)
    {
      var answer :- Reach(provider);
      var i := LandingOf(View(provider).landed, signature);
      if answer.blank || i.None? {
        return Done(None);
      }
      var tx := Rendered(nature.client, View(provider).landed[i.value], answer);
      told := told + [Telling(provider, signature, tx)];
      assert Honest(nature.client, tx, View(provider).landed[i.value]);
      return Done(Some(tx));
    }

    /** The signature history of a record, as the primary node serves it. */
    method GetHistory(record: Key) returns (r: Try<Endpoint>)
      requires Valid()
      modifies this`calls, this`now, this`seenPrimary, this`seenSecond
      ensures Passes() && Answers(Primary)
      ensures nature.Prompt(old(calls)) ==> r.Done?
      ensures r.Done? ==> r.value == nature.endpoint(seenPrimary, record)
    {
      var _ :- Reach(Primary);
      return Done(nature.endpoint(seenPrimary, record));
    }
  }
}

/** Finding the transaction that created a record in the record's signature history. */
module Search {
  import opened Basics
  import opened Codec
  import opened Program
  import opened Runs
  import opened Evidence

  // ----- The endpoint -----

  datatype Entry = Entry(signature: string, failed: bool)

  datatype Batch = Refused | NotAList | Answered(transactions: seq<Option<RpcTransaction>>)

  datatype Single = Throws | Missing | Got(transaction: RpcTransaction)

  /**
    An endpoint: the record's history, newest first, and its answers, which may
    differ from one call to the next. `pages` says which history requests it
    answers at all.
   */
  datatype Endpoint = Endpoint(history: seq<Entry>, pages: nat -> bool,
                               batch: (nat, seq<string>) -> Batch, single: (nat, string) -> Single)

  /** What the cluster knows of each signature. */
  type Archive = map<string, RpcTransaction>

  /** A transaction in an answer is the one its signatures name; order, holes and refusals are free. */
  ghost predicate Truthful(e: Endpoint, archive: Archive) {
    && (forall i, j :: 0 <= i < j < |e.history| ==> e.history[i].signature != e.history[j].signature)
    && (forall call: nat, asked: seq<string> :: e.batch(call, asked).Answered? ==>
          Names(e.batch(call, asked).transactions, archive))
    && (forall call: nat, signature: string :: e.single(call, signature).Got? ==>
          Names([Some(e.single(call, signature).transaction)], archive))
  }

  ghost predicate Names(transactions: seq<Option<RpcTransaction>>, archive: Archive) {
    forall i :: 0 <= i < |transactions| && transactions[i].Some? ==>
      forall j :: 0 <= j < |transactions[i].value.signatures| ==>
        var s := transactions[i].value.signatures[j];
        s in archive && archive[s] == transactions[i].value
  }

  /** The endpoint answers every page, and every successful entry when asked for it alone. */
  ghost predicate Reliable(e: Endpoint, archive: Archive) {
    && (forall call: nat :: e.pages(call))
    && forall i :: 0 <= i < |e.history| && !e.history[i].failed ==> AnswersAlone(e, archive, e.history[i].signature)
  }

  ghost predicate AnswersAlone(e: Endpoint, archive: Archive, s: string) {
    && s in archive && s in archive[s].signatures
    && forall call: nat :: e.single(call, s) == Got(archive[s])
  }

  ghost predicate AllAnswerAlone(e: Endpoint, archive: Archive, signatures: seq<string>) {
    forall i :: 0 <= i < |signatures| ==> AnswersAlone(e, archive, signatures[i])
  }

  // ----- What counts as the creation -----

  predicate HasEventSeed(data: seq<byte>, seed: Key) {
    |data| >= 33 && data[1..33] == seed
  }

  predicate SettlesEvent(instruction: RpcInstruction, programId: Key, namespace: Key, seed: Key) {
    && instruction.Raw?
    && instruction.programId == programId
    && instruction.data.Some?
    && var data := instruction.data.value;
       && data != []
       && (data[0] == SETTLE_N_TAG || data[0] == SETTLE_TOKEN_N_TAG)
       && |instruction.accounts| > 2
       && instruction.accounts[2] == namespace
       && HasEventSeed(data, seed)
  }

  datatype Query = Query(programId: Key, namespace: Key, seed: Key)

  predicate Matches(instructions: seq<RpcInstruction>, q: Query) {
    exists i :: 0 <= i < |instructions| && SettlesEvent(instructions[i], q.programId, q.namespace, q.seed)
  }

  /** Whether a transaction settles the event: at top level, under another program, or not at all. */
  function SettlementIn(tx: RpcTransaction, q: Query): Option<bool> {
    if Matches(tx.instructions, q) then Some(true)
    else if exists g :: 0 <= g < |tx.inner| && Matches(tx.inner[g].instructions, q) then Some(false)
    else None
  }

  datatype Found = Found(signature: string, slot: nat, topLevel: bool)

  function FoundIn(signature: string, tx: RpcTransaction, q: Query): seq<Found> {
    if !tx.succeeded || SettlementIn(tx, q).None? then []
    else [Found(signature, tx.slot, SettlementIn(tx, q).value)]
  }

  /** Every candidate of a history, read from the archive alone. */
  function Candidates(history: seq<Entry>, archive: Archive, q: Query): seq<Found> {
    if history == [] then []
    else
      var n := |history| - 1;
      var s := history[n].signature;
      Candidates(history[..n], archive, q)
      + if history[n].failed || s !in archive then [] else FoundIn(s, archive[s], q)
  }

  function Succeeded(page: seq<Entry>): (s: seq<string>) {
    if page == [] then []
    else
      var n := |page| - 1;
      Succeeded(page[..n]) + if page[n].failed then [] else [page[n].signature]
  }

  /** The candidates among signatures of successful entries. */
  function CandidatesOf(signatures: seq<string>, archive: Archive, q: Query): seq<Found> {
    if signatures == [] then []
    else
      var n := |signatures| - 1;
      CandidatesOf(signatures[..n], archive, q)
      + if signatures[n] !in archive then [] else FoundIn(signatures[n], archive[signatures[n]], q)
  }

  lemma {:induction false} CandidatesOfSucceeded(page: seq<Entry>, archive: Archive, q: Query)
    ensures CandidatesOf(Succeeded(page), archive, q) == Candidates(page, archive, q)
  {
    if page != [] {
      var n := |page| - 1;
      CandidatesOfSucceeded(page[..n], archive, q);
      if !page[n].failed {
        var s := Succeeded(page);
        assert s[..|s| - 1] == Succeeded(page[..n]);
      } else {
        assert Succeeded(page) == Succeeded(page[..n]);
      }
    }
  }

  lemma {:induction false} CandidatesAppend(h: seq<Entry>, page: seq<Entry>, archive: Archive, q: Query)
    ensures Candidates(h + page, archive, q) == Candidates(h, archive, q) + Candidates(page, archive, q)
  {
    if page == [] {
      assert h + page == h;
    } else {
      var n := |page| - 1;
      assert (h + page)[..|h + page| - 1] == h + page[..n];
      CandidatesAppend(h, page[..n], archive, q);
    }
  }

  lemma {:induction false} SucceededEntry(page: seq<Entry>, i: nat) returns (k: nat)
    requires i < |Succeeded(page)|
    ensures k < |page| && !page[k].failed && page[k].signature == Succeeded(page)[i]
  {
    var n := |page| - 1;
    if i < |Succeeded(page[..n])| {
      k := SucceededEntry(page[..n], i);
    } else {
      k := n;
    }
  }

  /** Every successful entry of the history has an answer. */
  ghost predicate AllKnown(history: seq<Entry>, archive: Archive) {
    forall i :: 0 <= i < |history| && !history[i].failed ==> history[i].signature in archive
  }

  lemma {:induction false} KnownEntries(page: seq<Entry>, archive: Archive)
    requires forall i :: 0 <= i < |Succeeded(page)| ==> Succeeded(page)[i] in archive
    ensures AllKnown(page, archive)
  {
    if page != [] {
      var n := |page| - 1;
      var s := Succeeded(page);
      assert forall i :: 0 <= i < |Succeeded(page[..n])| ==> Succeeded(page[..n])[i] == s[i];
      KnownEntries(page[..n], archive);
      assert forall i :: 0 <= i < n ==> page[..n][i] == page[i];
      if !page[n].failed {
        assert s[|s| - 1] == page[n].signature;
      }
    }
  }

  // ----- The search -----

  /** RECORD_HISTORY, or an error of the connection that no handler turns into it. */
  datatype SearchError = RECORD_HISTORY | Connection

  const HISTORY_BATCH: nat := 100

  /**
    The finalized transactions for some signatures: a batch, in whatever order
    and with whatever holes it comes, then one request for each that is missing.
   */
  method FetchFinalized(e: Endpoint, signatures: seq<string>, call: nat, ghost archive: Archive)
    returns (r: Result<map<string, RpcTransaction>, SearchError>)
    ensures r.Err? ==> r.error == RECORD_HISTORY
    ensures Truthful(e, archive) && r.Ok? ==>
              forall s :: s in r.value ==> s in archive && archive[s] == r.value[s]
    ensures Truthful(e, archive) && AllAnswerAlone(e, archive, signatures) ==>
              r.Ok? && forall i :: 0 <= i < |signatures| ==> signatures[i] in r.value
  {
    var found: map<string, RpcTransaction> := map[];
    var answer := e.batch(call, signatures);
    var batch := if answer.Answered? then answer.transactions else [];
    for i := 0 to |batch|
      invariant Truthful(e, archive) ==> forall s :: s in found ==> s in archive && archive[s] == found[s]
    {
      if batch[i].Some? {
        var transaction := batch[i].value;
        for j := 0 to |transaction.signatures|
          invariant Truthful(e, archive) ==> forall s :: s in found ==> s in archive && archive[s] == found[s]
        {
          assert Truthful(e, archive) ==> Names(batch, archive);
          found := found[transaction.signatures[j] := transaction];
        }
      }
    }
    for i := 0 to |signatures|
      invariant Truthful(e, archive) ==> forall s :: s in found ==> s in archive && archive[s] == found[s]
      invariant AllAnswerAlone(e, archive, signatures) ==> forall k :: 0 <= k < i ==> signatures[k] in found
    {
      var signature := signatures[i];
      assert AllAnswerAlone(e, archive, signatures) ==> AnswersAlone(e, archive, signature);
      if signature !in found {
        var single := e.single(call, signature);
        match single {
          case Throws => return Err(RECORD_HISTORY);
          case Missing =>
          case Got(transaction) =>
            if signature in transaction.signatures {
              assert Truthful(e, archive) ==> Names([Some(transaction)], archive);
              assert [Some(transaction)][0] == Some(transaction);
              found := found[signature := transaction];
            }
        }
      }
    }
    return Ok(found);
  }

  /** The matches among a batch of successful signatures. */
  method ReadBatch(e: Endpoint, signatures: seq<string>, call: nat, q: Query, ghost archive: Archive)
    returns (r: Result<seq<Found>, SearchError>)
    ensures r.Err? ==> r.error == RECORD_HISTORY
    ensures Truthful(e, archive) && r.Ok? ==> r.value == CandidatesOf(signatures, archive, q)
    ensures Truthful(e, archive) && r.Ok? ==> forall i :: 0 <= i < |signatures| ==> signatures[i] in archive
    ensures Truthful(e, archive) && AllAnswerAlone(e, archive, signatures) ==> r.Ok?
  {
    var fetched := FetchFinalized(e, signatures, call, archive);
    if fetched.Err? {
      return Err(fetched.error);
    }
    var matches: seq<Found> := [];
    for i := 0 to |signatures|
      invariant Truthful(e, archive) ==> matches == CandidatesOf(signatures[..i], archive, q)
      invariant Truthful(e, archive) ==> forall k :: 0 <= k < i ==> signatures[k] in archive
    {
      assert signatures[..i + 1][..i] == signatures[..i];
      if signatures[i] !in fetched.value {
        return Err(RECORD_HISTORY);
      }
      var transaction := fetched.value[signatures[i]];
      if transaction.succeeded {
        var settlement := SettlementIn(transaction, q);
        if settlement.Some? {
          matches := matches + [Found(signatures[i], transaction.slot, settlement.value)];
        }
      }
    }
    assert signatures[..|signatures|] == signatures;
    return Ok(matches);
  }

  lemma {:induction false} CandidatesOfAppend(s: seq<string>, t: seq<string>, archive: Archive, q: Query)
    ensures CandidatesOf(s + t, archive, q) == CandidatesOf(s, archive, q) + CandidatesOf(t, archive, q)
  {
    if t == [] {
      assert s + t == s;
    } else {
      assert (s + t)[..|s + t| - 1] == s + t[..|t| - 1];
      CandidatesOfAppend(s, t[..|t| - 1], archive, q);
    }
  }

  /** The matches among one page's successful entries, a batch at a time. */
  method ReadPage(e: Endpoint, page: seq<Entry>, call: nat, q: Query, ghost archive: Archive)
    returns (r: Result<seq<Found>, SearchError>, next: nat)
    ensures r.Err? ==> r.error == RECORD_HISTORY
    ensures Truthful(e, archive) && r.Ok? ==> r.value == Candidates(page, archive, q) && AllKnown(page, archive)
    ensures Truthful(e, archive) && Reliable(e, archive) && (forall i :: 0 <= i < |page| ==> page[i] in e.history) ==> r.Ok?
  {
    var succeeded := Succeeded(page);
    var matches: seq<Found> := [];
    var start := 0;
    next := call;
    while start < |succeeded|
      invariant start <= |succeeded|
      invariant Truthful(e, archive) ==> matches == CandidatesOf(succeeded[..start], archive, q)
      invariant Truthful(e, archive) ==> forall i :: 0 <= i < start ==> succeeded[i] in archive
    {
      var end := if start + HISTORY_BATCH < |succeeded| then start + HISTORY_BATCH else |succeeded|;
      var signatures := succeeded[start..end];
      ReliableBatch(e, page, start, end, archive);
      var found := ReadBatch(e, signatures, next, q, archive);
      next := next + 1;
      if found.Err? {
        return Err(found.error), next;
      }
      assert succeeded[..end] == succeeded[..start] + signatures;
      CandidatesOfAppend(succeeded[..start], signatures, archive, q);
      matches := matches + found.value;
      assert forall i :: start <= i < end ==> succeeded[i] == signatures[i - start];
      start := end;
    }
    assert succeeded[..|succeeded|] == succeeded;
    CandidatesOfSucceeded(page, archive, q);
    if Truthful(e, archive) {
      KnownEntries(page, archive);
    }
    return Ok(matches), next;
  }

  lemma ReliableBatch(e: Endpoint, page: seq<Entry>, start: nat, end: nat, archive: Archive)
    requires start <= end <= |Succeeded(page)|
    ensures Reliable(e, archive) && (forall i :: 0 <= i < |page| ==> page[i] in e.history) ==>
              AllAnswerAlone(e, archive, Succeeded(page)[start..end])
  {
    if Reliable(e, archive) && forall i :: 0 <= i < |page| ==> page[i] in e.history {
      forall i | 0 <= i < end - start
        ensures AnswersAlone(e, archive, Succeeded(page)[start..end][i])
      {
        var k := SucceededEntry(page, start + i);
        assert page[k] in e.history;
      }
    }
  }

  /** Where the entries older than a signature begin. */
  function PositionAfter(history: seq<Entry>, signature: string): (i: nat)
    ensures i <= |history|
  {
    if history == [] then 0
    else if history[0].signature == signature then 1
    else 1 + PositionAfter(history[1..], signature)
  }

  lemma {:induction false} PositionOfEntry(history: seq<Entry>, i: nat)
    requires i < |history|
    requires forall j, k :: 0 <= j < k < |history| ==> history[j].signature != history[k].signature
    ensures PositionAfter(history, history[i].signature) == i + 1
  {
    if i > 0 {
      PositionOfEntry(history[1..], i - 1);
    }
  }

  /** One page of the history, newest first, older than `before`. */
  function Page(e: Endpoint, before: Option<string>, limit: nat): (page: seq<Entry>)
  {
    var start := if before.None? then 0 else PositionAfter(e.history, before.value);
    var end := if start + limit < |e.history| then start + limit else |e.history|;
    e.history[start..end]
  }

  const PAGE_LIMIT: nat := 1000

  /** The verdict a complete reading of the history calls for. */
  function Verdict(history: seq<Entry>, archive: Archive, q: Query, maxSignatures: int): Option<Found> {
    if |history| < maxSignatures && |Candidates(history, archive, q)| == 1
    then Some(Candidates(history, archive, q)[0])
    else None
  }

  /** The first `read` entries have been read, and `matches` are their candidates. */
  ghost predicate ReadSoFar(e: Endpoint, archive: Archive, q: Query, before: Option<string>, read: nat, matches: seq<Found>) {
    && read <= |e.history|
    && (before.None? ==> read == 0)
    && (before.Some? ==> PositionAfter(e.history, before.value) == read)
    && matches == Candidates(e.history[..read], archive, q)
    && AllKnown(e.history[..read], archive)
  }

  /** A full page leads on from where it ends; a short one ends the history. */
  lemma PageReads(e: Endpoint, archive: Archive, q: Query, before: Option<string>, read: nat, matches: seq<Found>,
                  limit: nat, more: seq<Found>)
    requires Truthful(e, archive) && ReadSoFar(e, archive, q, before, read, matches) && limit > 0
    requires more == Candidates(Page(e, before, limit), archive, q) && AllKnown(Page(e, before, limit), archive)
    ensures var page := Page(e, before, limit);
            && |page| <= limit && read + |page| <= |e.history|
            && (|page| < limit ==> read + |page| == |e.history| && matches + more == Candidates(e.history, archive, q)
                                   && AllKnown(e.history, archive))
            && (|page| == limit ==>
                  ReadSoFar(e, archive, q, Some(page[limit - 1].signature), read + limit, matches + more))
  {
    var page := Page(e, before, limit);
    hide Candidates, PositionAfter;
    assert e.history[..read + |page|] == e.history[..read] + page;
    CandidatesAppend(e.history[..read], page, archive, q);
    if |page| == limit {
      assert page[limit - 1] == e.history[read + limit - 1];
      PositionOfEntry(e.history, read + limit - 1);
    } else {
      assert e.history[..read + |page|] == e.history;
    }
  }

  /**
    The search. Whatever the endpoint omits, reorders, repeats or refuses, an
    answer is the one candidate of the whole history, and the history was
    shorter than the cap; and a reliable endpoint gets that answer whenever
    there is one.
   */
  method FindCreatingTransaction(e: Endpoint, q: Query, maxSignatures: int, ghost archive: Archive)
    returns (r: Result<Found, SearchError>)
    ensures Truthful(e, archive) && r.Ok? ==>
              Verdict(e.history, archive, q, maxSignatures) == Some(r.value) && AllKnown(e.history, archive)
    ensures Truthful(e, archive) && Reliable(e, archive) ==>
              r == match Verdict(e.history, archive, q, maxSignatures)
                   case Some(found) => Ok(found)
                   case None => Err(RECORD_HISTORY)
  {
    if maxSignatures <= 0 {
      return Err(RECORD_HISTORY);
    }
    hide Candidates, PositionAfter, Truthful;
    var matches: seq<Found> := [];
    var read := 0;
    var before: Option<string> := None;
    var call, request := 0, 0;
    StartOfHistory(e, archive, q);
    while true
      invariant 0 <= read < maxSignatures
      invariant Truthful(e, archive) ==> ReadSoFar(e, archive, q, before, read, matches)
      decreases maxSignatures - read
    {
      var limit := if PAGE_LIMIT < maxSignatures - read then PAGE_LIMIT else maxSignatures - read;
      if !e.pages(request) {
        return Err(Connection);
      }
      request := request + 1;
      var page := Page(e, before, limit);
      var found: Result<seq<Found>, SearchError>;
      found, call := ReadPage(e, page, call, q, archive);
      if found.Err? {
        return Err(found.error);
      }
      if Truthful(e, archive) {
        PageReads(e, archive, q, before, read, matches, limit, found.value);
      }
      matches := matches + found.value;
      read := read + |page|;
      if |page| < limit {
        break;
      }
      if read >= maxSignatures {
        return Err(RECORD_HISTORY);
      }
      before := Some(page[|page| - 1].signature);
    }
    if |matches| != 1 {
      return Err(RECORD_HISTORY);
    }
    return Ok(matches[0]);
  }

  lemma StartOfHistory(e: Endpoint, archive: Archive, q: Query)
    ensures ReadSoFar(e, archive, q, None, 0, [])
  {}
}

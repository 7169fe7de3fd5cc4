/** The ledger's books: what the payments recorded add up to. */
module Books {
  import opened Basics
  import opened Program
  import opened Splits
  import opened Text
  import opened Evidence
  import opened Tables

  // ----- Totals -----

  function EntryTotal(rows: seq<EntryRow>): nat {
    if rows == [] then 0 else EntryTotal(rows[..|rows| - 1]) + rows[|rows| - 1].entry.amount
  }

  /** What a beneficiary's entries come to. */
  function BalanceOf(rows: seq<EntryRow>, beneficiaryId: string): nat {
    if rows == [] then 0
    else
      var last := rows[|rows| - 1].entry;
      BalanceOf(rows[..|rows| - 1], beneficiaryId) + if last.beneficiaryId == beneficiaryId then last.amount else 0
  }

  function PoolTotal(rows: seq<PoolRow>): nat {
    if rows == [] then 0 else PoolTotal(rows[..|rows| - 1]) + rows[|rows| - 1].payout.amount
  }

  function SettledTotal(rows: seq<SettlementRow>): int {
    if rows == [] then 0
    else
      var record := rows[|rows| - 1].record;
      SettledTotal(rows[..|rows| - 1]) + record.amountAtomic * record.scale
  }

  function LineTotal(lines: seq<PayoutLine>): nat {
    if lines == [] then 0 else LineTotal(lines[..|lines| - 1]) + lines[|lines| - 1].amount
  }

  function DirectTotal(lines: seq<PayoutLine>): nat {
    if lines == [] then 0
    else
      var line := lines[|lines| - 1];
      DirectTotal(lines[..|lines| - 1]) + if line.beneficiaryId.Some? then line.amount else 0
  }

  /** What the lines of a payment owe to a beneficiary. */
  function OwedTo(lines: seq<PayoutLine>, beneficiaryId: string): nat {
    if lines == [] then 0
    else
      var line := lines[|lines| - 1];
      OwedTo(lines[..|lines| - 1], beneficiaryId) + if line.beneficiaryId == Some(beneficiaryId) then line.amount else 0
  }

  /** What all settlements owe to a beneficiary. */
  function OwedByAll(rows: seq<SettlementRow>, beneficiaryId: string): nat {
    if rows == [] then 0
    else OwedByAll(rows[..|rows| - 1], beneficiaryId) + OwedTo(rows[|rows| - 1].record.payouts, beneficiaryId)
  }

  /** What the lines of a payment sent to a wallet. */
  function SentTo(lines: seq<PayoutLine>, wallet: string): nat {
    if lines == [] then 0
    else
      var line := lines[|lines| - 1];
      SentTo(lines[..|lines| - 1], wallet) + if line.recipient == wallet then line.amount else 0
  }

  // ----- Lines the ledger cannot tell apart -----

  /** What an entry's id says besides the signature. */
  function LineText(role: string, beneficiaryId: string): string {
    role + [NUL] + beneficiaryId
  }

  /** The line is a direct payout that reads as `text`. */
  predicate Reads(line: PayoutLine, text: string) {
    line.beneficiaryId.Some? && LineText(line.role, line.beneficiaryId.value) == text
  }

  predicate Repeats(lines: seq<PayoutLine>, i: nat)
    requires i < |lines|
  {
    && lines[i].beneficiaryId.Some?
    && exists j :: 0 <= j < i && Reads(lines[j], LineText(lines[i].role, lines[i].beneficiaryId.value))
  }

  /** What the repeated lines of a payment come to. */
  function Dropped(lines: seq<PayoutLine>): nat {
    if lines == [] then 0
    else
      var n := |lines| - 1;
      Dropped(lines[..n]) + if Repeats(lines, n) then lines[n].amount else 0
  }

  /** What the repeated lines of a payment owed to a beneficiary. */
  function DroppedFor(lines: seq<PayoutLine>, beneficiaryId: string): nat {
    if lines == [] then 0
    else
      var n := |lines| - 1;
      DroppedFor(lines[..n], beneficiaryId)
      + if Repeats(lines, n) && lines[n].beneficiaryId == Some(beneficiaryId) then lines[n].amount else 0
  }

  function DroppedForAll(rows: seq<SettlementRow>, beneficiaryId: string): nat {
    if rows == [] then 0
    else DroppedForAll(rows[..|rows| - 1], beneficiaryId) + DroppedFor(rows[|rows| - 1].record.payouts, beneficiaryId)
  }

  lemma {:induction false} DroppedForFew(lines: seq<PayoutLine>, beneficiaryId: string)
    ensures DroppedFor(lines, beneficiaryId) <= Dropped(lines)
  {
    if lines != [] {
      DroppedForFew(lines[..|lines| - 1], beneficiaryId);
    }
  }

  lemma {:induction false} DroppedForFewer(rows: seq<SettlementRow>, beneficiaryId: string)
    ensures DroppedForAll(rows, beneficiaryId) <= DroppedTotal(rows)
  {
    if rows != [] {
      DroppedForFewer(rows[..|rows| - 1], beneficiaryId);
      DroppedForFew(rows[|rows| - 1].record.payouts, beneficiaryId);
    }
  }

  function DroppedTotal(rows: seq<SettlementRow>): nat {
    if rows == [] then 0
    else DroppedTotal(rows[..|rows| - 1]) + Dropped(rows[|rows| - 1].record.payouts)
  }

  /** No nonzero direct payout repeats an earlier one's role and beneficiary. */
  predicate NothingRepeats(lines: seq<PayoutLine>) {
    forall i :: 0 <= i < |lines| && Repeats(lines, i) ==> lines[i].amount == 0
  }

  lemma {:induction false} DroppedIffRepeats(lines: seq<PayoutLine>)
    ensures Dropped(lines) == 0 <==> NothingRepeats(lines)
  {
    if lines != [] {
      var n := |lines| - 1;
      DroppedIffRepeats(lines[..n]);
      assert forall i :: 0 <= i < n ==> (Repeats(lines[..n], i) <==> Repeats(lines, i)) by {
        forall i | 0 <= i < n
          ensures Repeats(lines[..n], i) <==> Repeats(lines, i)
        {
          assert forall j :: 0 <= j <= i ==> lines[..n][j] == lines[j];
        }
      }
      assert forall i :: 0 <= i < n ==> lines[..n][i] == lines[i];
    }
  }

  // ----- One payment -----

  /** A payment as the reconciler derives it: its rows follow from its record, and its lines add up. */
  ghost predicate IsBooking(paid: Reconciliation) {
    var record := paid.record;
    && NUL !in record.signature
    && paid.entries == EntriesOf(record.signature, record.payouts)
    && paid.pools == PoolsOf(record.payouts)
    && OnePool(record.payouts)
    && LineTotal(record.payouts) == record.amountAtomic * record.scale
  }

  predicate OnePool(lines: seq<PayoutLine>) {
    forall i, j :: 0 <= i < j < |lines| ==> lines[i].beneficiaryId.Some? || lines[j].beneficiaryId.Some?
  }

  lemma {:induction false} LinesPaid(shares: seq<Share>, amounts: seq<nat>, ids: map<string, string>)
    requires |shares| == |amounts|
    ensures LineTotal(PayoutLines(shares, amounts, ids)) == Sum(amounts)
  {
    if shares != [] {
      var n := |shares| - 1;
      LinesPaid(shares[..n], amounts[..n], ids);
      assert PayoutLines(shares, amounts, ids)[..n] == PayoutLines(shares[..n], amounts[..n], ids);
      SumPrefix(amounts, n);
      assert amounts[..n + 1] == amounts;
    }
  }

  lemma LinesPoolOnce(shares: seq<Share>, amounts: seq<nat>, ids: map<string, string>)
    requires |shares| == |amounts| && LabelsValid(shares)
    ensures OnePool(PayoutLines(shares, amounts, ids))
  {}

  /** What the reconciler returns, when it accepts. */
  lemma Accepted(client: Client, o: Observation, request: Request, namespace: Key, scale: int, ids: map<string, string>)
    returns (amounts: seq<nat>)
    requires Reconcile(client, o, request, namespace, scale, ids).Ok?
    ensures Split(o.amount, o.bps) == Ok(amounts) && |amounts| == |request.shares| && LabelsValid(request.shares)
    ensures o.amount == request.amountAtomic * scale
    ensures var lines := PayoutLines(request.shares, amounts, ids);
            Reconcile(client, o, request, namespace, scale, ids).value ==
            Reconciliation(SettlementRecord(request.eventId, o.signature, o.namespace, o.authority, o.payer,
                                            request.amountAtomic, scale, lines),
                           EntriesOf(o.signature, lines), PoolsOf(lines))
  {
    hide Sort, MemoMatches, Base58, ExpectedKeys, ObservedKeys, Split, PayoutLines, EntriesOf, PoolsOf, LabelsValid, Texts;
    amounts := SharesOf(o.amount, o.bps).value;
  }

  /** Whatever the reconciler accepts is a booking. */
  lemma ReconciledIsBooking(client: Client, o: Observation, request: Request, namespace: Key, scale: int,
                            ids: map<string, string>)
    requires Reconcile(client, o, request, namespace, scale, ids).Ok? && NUL !in o.signature
    ensures IsBooking(Reconcile(client, o, request, namespace, scale, ids).value)
  {
    var amounts := Accepted(client, o, request, namespace, scale, ids);
    SplitIsFair(o.amount, o.bps);
    LinesPaid(request.shares, amounts, ids);
    LinesPoolOnce(request.shares, amounts, ids);
    hide *;
    BookingOf(o, request, scale, PayoutLines(request.shares, amounts, ids));
  }

  lemma BookingOf(o: Observation, request: Request, scale: int, lines: seq<PayoutLine>)
    requires NUL !in o.signature && OnePool(lines) && LineTotal(lines) == request.amountAtomic * scale
    ensures IsBooking(Reconciliation(SettlementRecord(request.eventId, o.signature, o.namespace, o.authority, o.payer,
                                                      request.amountAtomic, scale, lines),
                                     EntriesOf(o.signature, lines), PoolsOf(lines)))
  {}

  // ----- Who is booked what -----

  /** The line says whom a share's payout went to, how much, and to whose account it is booked. */
  predicate IsLineOf(line: PayoutLine, share: Share, amount: int, ids: map<string, string>) {
    && line.recipient == share.recipient && line.bps == share.bps && line.amount == amount
    && (share.name == "synxed" ==> line.role == "platform")
    && (share.name != "synxed" ==> line.role == share.name)
    && (share.name == "rewards_pool" ==> line.beneficiaryId == None)
    && (share.name != "rewards_pool" && share.name in ids ==> line.beneficiaryId == Some(ids[share.name]))
    && (share.name != "rewards_pool" && share.name !in ids ==> line.beneficiaryId == Some("wallet:" + share.recipient))
  }

  /** One line per share, in order, with that share's part of the split. */
  ghost predicate TellsPayouts(lines: seq<PayoutLine>, request: Request, total: int, ids: map<string, string>) {
    var split := Split(total, BpsOfShares(request.shares));
    && split.Ok? && |lines| == |request.shares|
    && forall i :: 0 <= i < |lines| ==> IsLineOf(lines[i], request.shares[i], split.value[i], ids)
  }

  /** Whatever the reconciler accepts is recorded as it was observed, and books each share its own payout. */
  lemma ReconciledTellsPayouts(client: Client, o: Observation, request: Request, namespace: Key, scale: int,
                               ids: map<string, string>)
    requires Reconcile(client, o, request, namespace, scale, ids).Ok?
    ensures var record := Reconcile(client, o, request, namespace, scale, ids).value.record;
            && TellsPayouts(record.payouts, request, request.amountAtomic * scale, ids)
            && record.eventId == request.eventId && record.amountAtomic == request.amountAtomic && record.scale == scale
            && record.signature == o.signature && record.namespace == o.namespace
            && record.payer == o.payer && record.authority == o.authority
  {
    var amounts := Accepted(client, o, request, namespace, scale, ids);
    AcceptedShares(client, o, request, namespace, scale, ids);
    hide Reconcile, Split;
  }

  lemma AcceptedShares(client: Client, o: Observation, request: Request, namespace: Key, scale: int, ids: map<string, string>)
    requires Reconcile(client, o, request, namespace, scale, ids).Ok?
    ensures o.bps == BpsOfShares(request.shares)
  {
    hide Sort, MemoMatches, Base58, ExpectedKeys, ObservedKeys, Split, PayoutLines, EntriesOf, PoolsOf, LabelsValid, Texts;
  }

  /** How many lines before the `i`th are direct. */
  function DirectBefore(lines: seq<PayoutLine>, i: nat): nat
    requires i <= |lines|
  {
    if i == 0 then 0 else DirectBefore(lines, i - 1) + if lines[i - 1].beneficiaryId.Some? then 1 else 0
  }

  lemma {:induction false} DirectBeforePrefix(lines: seq<PayoutLine>, n: nat, i: nat)
    requires i <= n <= |lines|
    ensures DirectBefore(lines[..n], i) == DirectBefore(lines, i)
  {
    if i > 0 {
      DirectBeforePrefix(lines, n, i - 1);
    }
  }

  /** The entries are the direct lines, in order, each with its beneficiary, role, wallet and amount. */
  lemma {:induction false} EntriesTellLines(signature: string, lines: seq<PayoutLine>)
    ensures |EntriesOf(signature, lines)| == DirectBefore(lines, |lines|)
    ensures forall i :: 0 <= i < |lines| && lines[i].beneficiaryId.Some? ==>
              var at, line := DirectBefore(lines, i), lines[i];
              && at < |EntriesOf(signature, lines)|
              && EntriesOf(signature, lines)[at] ==
                 LedgerEntry(EntryId(signature, line.role, line.beneficiaryId.value), line.beneficiaryId.value, line.role,
                             line.recipient, line.amount)
  {
    if lines != [] {
      var n := |lines| - 1;
      EntriesTellLines(signature, lines[..n]);
      EntriesOfLast(signature, lines);
      DirectBeforePrefix(lines, n, n);
      hide EntriesOf;
      forall i | 0 <= i < n && lines[i].beneficiaryId.Some?
        ensures var at, line := DirectBefore(lines, i), lines[i];
                && at < |EntriesOf(signature, lines)|
                && EntriesOf(signature, lines)[at] ==
                   LedgerEntry(EntryId(signature, line.role, line.beneficiaryId.value), line.beneficiaryId.value, line.role,
                               line.recipient, line.amount)
      {
        DirectBeforePrefix(lines, n, i);
        assert lines[..n][i] == lines[i];
      }
    }
  }

  // ----- Writing it down -----

  /** No entry of another signature. */
  ghost predicate NoneSigned(rows: seq<EntryRow>, signature: string) {
    forall i :: 0 <= i < |rows| ==> BeforeNul(rows[i].entry.entryId) != signature
  }

  lemma EntriesOfLast(signature: string, lines: seq<PayoutLine>)
    requires lines != []
    ensures var n := |lines| - 1;
            var before := EntriesOf(signature, lines[..n]);
            EntriesOf(signature, lines) ==
            if lines[n].beneficiaryId.None? then before
            else before + [LedgerEntry(EntryId(signature, lines[n].role, lines[n].beneficiaryId.value),
                                       lines[n].beneficiaryId.value, lines[n].role, lines[n].recipient, lines[n].amount)]
  {}

  /** Writing a payment's entries: one line at a time. */
  lemma WrittenLast(rows: seq<EntryRow>, eventId: string, signature: string, lines: seq<PayoutLine>)
    requires lines != []
    ensures var n := |lines| - 1;
            var before := WithEntries(rows, eventId, EntriesOf(signature, lines[..n]));
            WithEntries(rows, eventId, EntriesOf(signature, lines)) ==
            if lines[n].beneficiaryId.None? then before
            else WithEntry(before, EntryRow(eventId,
                   LedgerEntry(EntryId(signature, lines[n].role, lines[n].beneficiaryId.value),
                               lines[n].beneficiaryId.value, lines[n].role, lines[n].recipient, lines[n].amount)))
  {
    EntriesOfLast(signature, lines);
    var entries, before := EntriesOf(signature, lines), EntriesOf(signature, lines[..|lines| - 1]);
    if lines[|lines| - 1].beneficiaryId.Some? {
      assert entries[..|entries| - 1] == before;
    }
  }

  /** An id of this signature is in the table exactly when a line reads as it does. */
  lemma {:induction false} EntryHeld(rows: seq<EntryRow>, eventId: string, signature: string, lines: seq<PayoutLine>,
                                     text: string)
    requires NUL !in signature && NoneSigned(rows, signature)
    ensures HasEntry(WithEntries(rows, eventId, EntriesOf(signature, lines)), signature + [NUL] + text)
       <==> exists j :: 0 <= j < |lines| && Reads(lines[j], text)
  {
    var id := signature + [NUL] + text;
    BeforeNulOfJoin(signature, text);
    if lines != [] {
      var n := |lines| - 1;
      EntryHeld(rows, eventId, signature, lines[..n], text);
      WrittenLast(rows, eventId, signature, lines);
      assert forall j :: 0 <= j < n ==> lines[..n][j] == lines[j];
      var before := WithEntries(rows, eventId, EntriesOf(signature, lines[..n]));
      var after := WithEntries(rows, eventId, EntriesOf(signature, lines));
      hide WithEntries, EntriesOf;
      if lines[n].beneficiaryId.Some? {
        var last := LineText(lines[n].role, lines[n].beneficiaryId.value);
        var lastId := EntryId(signature, lines[n].role, lines[n].beneficiaryId.value);
        assert lastId == signature + [NUL] + last;
        assert (signature + [NUL] + last)[|signature| + 1..] == last && id[|signature| + 1..] == text;
        AddedEntry(before, EntryRow(eventId, LedgerEntry(lastId, lines[n].beneficiaryId.value, lines[n].role,
                                                         lines[n].recipient, lines[n].amount)), id);
      }
    }
  }

  lemma AddedEntry(rows: seq<EntryRow>, row: EntryRow, id: string)
    ensures HasEntry(WithEntry(rows, row), id) <==> HasEntry(rows, id) || row.entry.entryId == id
  {
    var after := WithEntry(rows, row);
    if i :| 0 <= i < |rows| && rows[i].entry.entryId == id {
      assert after[i].entry.entryId == id;
    }
    if row.entry.entryId == id && !HasEntry(rows, id) {
      assert after[|rows|] == row;
    }
  }

  /** The row a direct line is written as. */
  function EntryFor(eventId: string, signature: string, line: PayoutLine): EntryRow
    requires line.beneficiaryId.Some?
  {
    EntryRow(eventId, LedgerEntry(EntryId(signature, line.role, line.beneficiaryId.value), line.beneficiaryId.value,
                                  line.role, line.recipient, line.amount))
  }

  /** The last line is written if it is direct and does not repeat an earlier one. */
  lemma LineWritten(rows: seq<EntryRow>, eventId: string, signature: string, lines: seq<PayoutLine>)
    requires NUL !in signature && NoneSigned(rows, signature) && lines != []
    ensures var n := |lines| - 1;
            var before := WithEntries(rows, eventId, EntriesOf(signature, lines[..n]));
            WithEntries(rows, eventId, EntriesOf(signature, lines)) ==
            if lines[n].beneficiaryId.None? || Repeats(lines, n) then before
            else before + [EntryFor(eventId, signature, lines[n])]
  {
    hide WithEntries, EntriesOf, NoneSigned;
    var n := |lines| - 1;
    WrittenLast(rows, eventId, signature, lines);
    if lines[n].beneficiaryId.Some? {
      var text := LineText(lines[n].role, lines[n].beneficiaryId.value);
      EntryHeld(rows, eventId, signature, lines[..n], text);
      assert EntryId(signature, lines[n].role, lines[n].beneficiaryId.value) == signature + [NUL] + text;
      assert forall j :: 0 <= j < n ==> lines[..n][j] == lines[j];
    }
  }

  lemma RowAdded(rows: seq<EntryRow>, row: EntryRow)
    ensures EntryTotal(rows + [row]) == EntryTotal(rows) + row.entry.amount
    ensures forall b :: BalanceOf(rows + [row], b)
                        == BalanceOf(rows, b) + if row.entry.beneficiaryId == b then row.entry.amount else 0
  {
    assert (rows + [row])[..|rows|] == rows;
  }

  /** Everything direct is written but for what repeats. */
  lemma {:induction false} EntriesWritten(rows: seq<EntryRow>, eventId: string, signature: string, lines: seq<PayoutLine>)
    requires NUL !in signature && NoneSigned(rows, signature)
    ensures EntryTotal(WithEntries(rows, eventId, EntriesOf(signature, lines))) + Dropped(lines)
         == EntryTotal(rows) + DirectTotal(lines)
  {
    hide NoneSigned, Repeats, EntryTotal;
    if lines != [] {
      var n := |lines| - 1;
      EntriesWritten(rows, eventId, signature, lines[..n]);
      LineWritten(rows, eventId, signature, lines);
      hide WithEntries, EntriesOf;
      if lines[n].beneficiaryId.Some? {
        RowAdded(WithEntries(rows, eventId, EntriesOf(signature, lines[..n])), EntryFor(eventId, signature, lines[n]));
      } else {
        NotRepeated(lines, n);
      }
    }
  }

  lemma NotRepeated(lines: seq<PayoutLine>, i: nat)
    requires i < |lines| && lines[i].beneficiaryId.None?
    ensures !Repeats(lines, i)
  {}

  /** What is written is owed, beneficiary by beneficiary, but for what repeats. */
  lemma {:induction false} OwedWritten(rows: seq<EntryRow>, eventId: string, signature: string, lines: seq<PayoutLine>,
                                       b: string)
    requires NUL !in signature && NoneSigned(rows, signature)
    ensures BalanceOf(WithEntries(rows, eventId, EntriesOf(signature, lines)), b) + DroppedFor(lines, b)
         == BalanceOf(rows, b) + OwedTo(lines, b)
  {
    hide NoneSigned, Repeats, BalanceOf;
    if lines != [] {
      var n := |lines| - 1;
      OwedWritten(rows, eventId, signature, lines[..n], b);
      LineWritten(rows, eventId, signature, lines);
      hide WithEntries, EntriesOf;
      if lines[n].beneficiaryId.Some? {
        RowAdded(WithEntries(rows, eventId, EntriesOf(signature, lines[..n])), EntryFor(eventId, signature, lines[n]));
      } else {
        NotRepeated(lines, n);
      }
    }
  }

  /** Every entry written carries the signature, and its event. */
  lemma {:induction false} EntriesSigned(rows: seq<EntryRow>, eventId: string, signature: string,
                                         lines: seq<PayoutLine>, i: nat)
    requires NUL !in signature && |rows| <= i < |WithEntries(rows, eventId, EntriesOf(signature, lines))|
    ensures var row := WithEntries(rows, eventId, EntriesOf(signature, lines))[i];
            row.eventId == eventId && BeforeNul(row.entry.entryId) == signature
  {
    hide BeforeNul;
    if lines != [] {
      var n := |lines| - 1;
      WrittenLast(rows, eventId, signature, lines);
      var before := WithEntries(rows, eventId, EntriesOf(signature, lines[..n]));
      if i < |before| {
        EntriesSigned(rows, eventId, signature, lines[..n], i);
      } else {
        BeforeNulOfJoin(signature, LineText(lines[n].role, lines[n].beneficiaryId.value));
      }
    }
  }

  lemma {:induction false} PoolsOfLines(lines: seq<PayoutLine>)
    requires OnePool(lines)
    ensures |PoolsOf(lines)| <= 1
    ensures PoolsOf(lines) != [] ==> exists i :: 0 <= i < |lines| && lines[i].beneficiaryId.None?
    ensures LineTotal(PoolsOf(lines)) + DirectTotal(lines) == LineTotal(lines)
  {
    if lines != [] {
      var n := |lines| - 1;
      PoolsOfLines(lines[..n]);
      if PoolsOf(lines[..n]) != [] {
        var i :| 0 <= i < n && lines[..n][i].beneficiaryId.None?;
        assert lines[i].beneficiaryId.None?;
      }
      if lines[n].beneficiaryId.None? {
        var pools := PoolsOf(lines);
        assert pools == [lines[n]] && pools[..0] == [];
      } else {
        assert PoolsOf(lines) == PoolsOf(lines[..n]);
      }
    }
  }

  lemma PoolsWritten(rows: seq<PoolRow>, eventId: string, lines: seq<PayoutLine>)
    requires OnePool(lines) && forall i :: 0 <= i < |rows| ==> rows[i].eventId != eventId
    ensures WithPools(rows, eventId, PoolsOf(lines)) ==
            rows + seq(|PoolsOf(lines)|, i requires 0 <= i < |PoolsOf(lines)| => PoolRow(eventId, PoolsOf(lines)[i]))
    ensures PoolTotal(WithPools(rows, eventId, PoolsOf(lines))) == PoolTotal(rows) + LineTotal(PoolsOf(lines))
  {
    PoolsOfLines(lines);
    var pools := PoolsOf(lines);
    if pools == [] {
      assert WithPools(rows, eventId, pools) == rows == rows + [];
    } else {
      assert pools[..0] == [] && WithPools(rows, eventId, pools[..0]) == rows;
      var after := WithPools(rows, eventId, pools);
      assert after == rows + [PoolRow(eventId, pools[0])];
      assert after[..|rows|] == rows;
      assert LineTotal(pools[..0]) == 0;
    }
  }

  // ----- The books -----

  ghost predicate HasBooking(rows: seq<SettlementRow>, eventId: string, signature: string) {
    exists k :: 0 <= k < |rows| && rows[k].eventId == eventId && rows[k].record.signature == signature
  }

  ghost predicate Unique(rows: seq<SettlementRow>) {
    && (forall i, j :: 0 <= i < j < |rows| ==>
          rows[i].eventId != rows[j].eventId && rows[i].record.signature != rows[j].record.signature)
    && forall i :: 0 <= i < |rows| ==> NUL !in rows[i].record.signature
  }

  ghost predicate EntriesBooked(settlements: seq<SettlementRow>, rows: seq<EntryRow>) {
    forall i :: 0 <= i < |rows| ==> HasBooking(settlements, rows[i].eventId, BeforeNul(rows[i].entry.entryId))
  }

  ghost predicate PoolsBooked(settlements: seq<SettlementRow>, rows: seq<PoolRow>) {
    forall i :: 0 <= i < |rows| ==> exists k :: 0 <= k < |settlements| && settlements[k].eventId == rows[i].eventId
  }

  /** What the tables keep: every ledger row belongs to a settlement, and everything settled is in them but what repeats. */
  ghost predicate BooksInv(db: Db) {
    && Unique(db.settlements)
    && EntriesBooked(db.settlements, db.entries)
    && PoolsBooked(db.settlements, db.pools)
    && EntryTotal(db.entries) + PoolTotal(db.pools) + DroppedTotal(db.settlements) == SettledTotal(db.settlements)
    && forall b :: BalanceOf(db.entries, b) + DroppedForAll(db.settlements, b) == OwedByAll(db.settlements, b)
  }

  lemma BookingsStay(rows: seq<SettlementRow>, row: SettlementRow, eventId: string, signature: string)
    requires HasBooking(rows, eventId, signature)
    ensures HasBooking(rows + [row], eventId, signature)
  {
    var k :| 0 <= k < |rows| && rows[k].eventId == eventId && rows[k].record.signature == signature;
    assert (rows + [row])[k] == rows[k];
  }

  lemma BookingAdded(rows: seq<SettlementRow>, row: SettlementRow)
    requires Unique(rows) && NUL !in row.record.signature && !HasSettlement(rows, row.eventId, row.record.signature)
    ensures Unique(rows + [row]) && HasBooking(rows + [row], row.eventId, row.record.signature)
    ensures DroppedTotal(rows + [row]) == DroppedTotal(rows) + Dropped(row.record.payouts)
    ensures SettledTotal(rows + [row]) == SettledTotal(rows) + row.record.amountAtomic * row.record.scale
    ensures forall b :: DroppedForAll(rows + [row], b) == DroppedForAll(rows, b) + DroppedFor(row.record.payouts, b)
    ensures forall b :: OwedByAll(rows + [row], b) == OwedByAll(rows, b) + OwedTo(row.record.payouts, b)
  {
    var after := rows + [row];
    assert after[..|rows|] == rows && after[|rows|] == row;
  }

  /** Of a payment not yet recorded the ledger has no row. */
  lemma NothingSignedYet(db: Db, eventId: string, paid: Reconciliation)
    requires BooksInv(db) && !HasSettlement(db.settlements, eventId, paid.record.signature)
    ensures NoneSigned(db.entries, paid.record.signature)
    ensures forall i :: 0 <= i < |db.pools| ==> db.pools[i].eventId != eventId
  {
    hide BeforeNul, BalanceOf, DroppedForAll, OwedByAll;
  }

  /** The ledger rows after a payment: those before, and its own. */
  lemma RowsAfterPayment(db: Db, eventId: string, landed: Option<nat>, paid: Reconciliation)
    requires BooksInv(db) && IsBooking(paid) && !HasSettlement(db.settlements, eventId, paid.record.signature)
    ensures var after := PaidRecorded(db, eventId, landed, paid);
            && db.entries <= after.entries && db.pools <= after.pools
            && (forall i :: |db.entries| <= i < |after.entries| ==>
                  after.entries[i].eventId == eventId
                  && BeforeNul(after.entries[i].entry.entryId) == paid.record.signature)
            && (forall i :: |db.pools| <= i < |after.pools| ==> after.pools[i].eventId == eventId)
            && after.settlements == db.settlements + [SettlementRow(eventId, paid.record)]
            && EntryTotal(after.entries) + PoolTotal(after.pools) + Dropped(paid.record.payouts)
               == EntryTotal(db.entries) + PoolTotal(db.pools) + paid.record.amountAtomic * paid.record.scale
            && forall b :: BalanceOf(after.entries, b) + DroppedFor(paid.record.payouts, b)
                           == BalanceOf(db.entries, b) + OwedTo(paid.record.payouts, b)
  {
    hide WithEntries, WithPools, EntriesOf, PoolsOf, MarkedPaid, Dropped, EntryTotal, PoolTotal, LineTotal, DirectTotal,
      BooksInv, NoneSigned, OnePool, BeforeNul, BalanceOf, DroppedFor, OwedTo;
    var signature, lines := paid.record.signature, paid.record.payouts;
    NothingSignedYet(db, eventId, paid);
    EntriesWritten(db.entries, eventId, signature, lines);
    EntriesStay(db.entries, eventId, paid.entries);
    PoolsWritten(db.pools, eventId, lines);
    PoolsOfLines(lines);
    var after := PaidRecorded(db, eventId, landed, paid);
    forall b: string
      ensures BalanceOf(after.entries, b) + DroppedFor(lines, b) == BalanceOf(db.entries, b) + OwedTo(lines, b)
    {
      OwedWritten(db.entries, eventId, signature, lines, b);
    }
    forall i | |db.entries| <= i < |after.entries|
      ensures after.entries[i].eventId == eventId && BeforeNul(after.entries[i].entry.entryId) == signature
    {
      EntriesSigned(db.entries, eventId, signature, lines, i);
    }
  }

  lemma BookingsExtend(db: Db, after: Db, row: SettlementRow)
    requires BooksInv(db) && after.settlements == db.settlements + [row]
    requires db.entries <= after.entries && db.pools <= after.pools
    requires forall i :: |db.entries| <= i < |after.entries| ==>
               after.entries[i].eventId == row.eventId
               && BeforeNul(after.entries[i].entry.entryId) == row.record.signature
    requires forall i :: |db.pools| <= i < |after.pools| ==> after.pools[i].eventId == row.eventId
    ensures EntriesBooked(after.settlements, after.entries) && PoolsBooked(after.settlements, after.pools)
  {
    hide DroppedTotal, SettledTotal, EntryTotal, PoolTotal, Unique, BeforeNul;
    forall i | 0 <= i < |after.entries|
      ensures HasBooking(after.settlements, after.entries[i].eventId, BeforeNul(after.entries[i].entry.entryId))
    {
      if i < |db.entries| {
        assert after.entries[i] == db.entries[i];
        BookingsStay(db.settlements, row, db.entries[i].eventId, BeforeNul(db.entries[i].entry.entryId));
      } else {
        assert after.settlements[|db.settlements|] == row;
      }
    }
    forall i | 0 <= i < |after.pools|
      ensures exists k :: 0 <= k < |after.settlements| && after.settlements[k].eventId == after.pools[i].eventId
    {
      if i < |db.pools| {
        assert after.pools[i] == db.pools[i];
        var k :| 0 <= k < |db.settlements| && db.settlements[k].eventId == db.pools[i].eventId;
        assert after.settlements[k] == db.settlements[k];
      } else {
        assert after.settlements[|db.settlements|] == row;
      }
    }
  }

  lemma SignedPlainly(paid: Reconciliation)
    requires IsBooking(paid)
    ensures NUL !in paid.record.signature
  {}

  /** Recording a payment for an event and a signature not yet recorded keeps the books, and its row is kept. */
  lemma PaymentKeepsBooks(db: Db, eventId: string, landed: Option<nat>, paid: Reconciliation)
    requires BooksInv(db) && IsBooking(paid) && !HasSettlement(db.settlements, eventId, paid.record.signature)
    ensures var after := PaidRecorded(db, eventId, landed, paid);
            BooksInv(after) && after.settlements == db.settlements + [SettlementRow(eventId, paid.record)]
  {
    hide PaidRecorded, EntriesBooked, PoolsBooked, Unique, HasBooking, HasSettlement, BeforeNul, Dropped, DroppedTotal,
      SettledTotal, EntryTotal, PoolTotal, IsBooking, BalanceOf, DroppedFor, OwedTo, DroppedForAll, OwedByAll;
    var row := SettlementRow(eventId, paid.record);
    RowsAfterPayment(db, eventId, landed, paid);
    SignedPlainly(paid);
    BookingAdded(db.settlements, row);
    BookingsExtend(db, PaidRecorded(db, eventId, landed, paid), row);
  }

  lemma {:induction false} DroppedNowhere(rows: seq<SettlementRow>)
    ensures DroppedTotal(rows) == 0 <==> forall i :: 0 <= i < |rows| ==> NothingRepeats(rows[i].record.payouts)
  {
    if rows != [] {
      var n := |rows| - 1;
      DroppedNowhere(rows[..n]);
      DroppedIffRepeats(rows[n].record.payouts);
      assert forall i :: 0 <= i < n ==> rows[..n][i] == rows[i];
    }
  }

  /**
    The conservation law, exactly: balances and pools together come to what was
    settled on chain if and only if no settlement pays one role and beneficiary
    twice.
   */
  lemma BalancedIff(db: Db)
    requires BooksInv(db)
    ensures EntryTotal(db.entries) + PoolTotal(db.pools) <= SettledTotal(db.settlements)
    ensures EntryTotal(db.entries) + PoolTotal(db.pools) == SettledTotal(db.settlements)
       <==> forall i :: 0 <= i < |db.settlements| ==> NothingRepeats(db.settlements[i].record.payouts)
  {
    DroppedNowhere(db.settlements);
  }

  /**
    The same for each beneficiary: nobody's balance exceeds what the settlements
    owe, and if no settlement pays one role and beneficiary twice, it is that.
   */
  lemma BalanceIsOwed(db: Db, b: string)
    requires BooksInv(db)
    ensures BalanceOf(db.entries, b) <= OwedByAll(db.settlements, b)
    ensures (forall i :: 0 <= i < |db.settlements| ==> NothingRepeats(db.settlements[i].record.payouts)) ==>
              BalanceOf(db.entries, b) == OwedByAll(db.settlements, b)
  {
    DroppedNowhere(db.settlements);
    DroppedForFewer(db.settlements, b);
  }

  // ----- Which requests repeat -----

  /** Labels without NUL, and not both "synxed" and "platform": nothing repeats. */
  lemma DistinctLabelsKeepAll(shares: seq<Share>, amounts: seq<nat>, ids: map<string, string>)
    requires |shares| == |amounts| && LabelsValid(shares)
    requires forall i :: 0 <= i < |shares| ==> NUL !in shares[i].name
    requires forall i, j :: 0 <= i < |shares| && 0 <= j < |shares| ==>
               !(shares[i].name == "synxed" && shares[j].name == "platform")
    ensures NothingRepeats(PayoutLines(shares, amounts, ids))
  {
    var lines := PayoutLines(shares, amounts, ids);
    forall i, j | 0 <= j < i < |lines| && lines[i].beneficiaryId.Some? && lines[j].beneficiaryId.Some?
      ensures LineText(lines[j].role, lines[j].beneficiaryId.value) != LineText(lines[i].role, lines[i].beneficiaryId.value)
    {
      assert lines[i] == Payout(shares[i], amounts[i], ids) && lines[j] == Payout(shares[j], amounts[j], ids);
      assert NUL !in lines[i].role && NUL !in lines[j].role;
      if LineText(lines[j].role, lines[j].beneficiaryId.value) == LineText(lines[i].role, lines[i].beneficiaryId.value) {
        JoinInjective(lines[j].role, lines[j].beneficiaryId.value, lines[i].role, lines[i].beneficiaryId.value);
        assert false;
      }
    }
  }

  /** Both names for the platform, paid to one wallet: the second payout gets no row. */
  lemma TwoNamesForThePlatform(wallet: string)
    ensures var shares := [Share("synxed", wallet, 5000), Share("platform", wallet, 5000)];
            var lines := PayoutLines(shares, [1, 1], map[]);
            LineTotal(lines) == 2 && Dropped(lines) == 1
  {
    var shares := [Share("synxed", wallet, 5000), Share("platform", wallet, 5000)];
    var lines := PayoutLines(shares, [1, 1], map[]);
    assert lines[..1][..0] == [] && lines[..1][0] == lines[0];
    assert lines[0].role == lines[1].role && lines[0].beneficiaryId == lines[1].beneficiaryId;
    assert Reads(lines[0], LineText(lines[1].role, lines[1].beneficiaryId.value));
    assert Repeats(lines, 1) && !Repeats(lines[..1], 0);
    assert Dropped(lines[..1]) == 0 && LineTotal(lines[..1]) == 1;
  }

  /** A label and an id that carry a NUL can read like another pair. */
  lemma NulShiftsTheBoundary()
    ensures var ids := map["a" := "b\0c", "a\0b" := "c"];
            var lines := PayoutLines([Share("a", "w", 5000), Share("a\0b", "v", 5000)], [1, 1], ids);
            LineTotal(lines) == 2 && Dropped(lines) == 1
  {
    var ids := map["a" := "b\0c", "a\0b" := "c"];
    var lines := PayoutLines([Share("a", "w", 5000), Share("a\0b", "v", 5000)], [1, 1], ids);
    assert lines[..1][..0] == [] && lines[..1][0] == lines[0];
    assert lines[0].role == "a" && lines[0].beneficiaryId == Some("b\0c");
    assert lines[1].role == "a\0b" && lines[1].beneficiaryId == Some("c");
    assert LineText("a", "b\0c") == "a\0b\0c" == LineText("a\0b", "c");
    assert Reads(lines[0], LineText(lines[1].role, lines[1].beneficiaryId.value));
    assert Repeats(lines, 1) && !Repeats(lines[..1], 0);
    assert Dropped(lines[..1]) == 0 && LineTotal(lines[..1]) == 1;
  }

  /**
    Balances and pools come to what was settled if and only if no payment
    repeats a line; no one's balance exceeds what they were paid, and nobody's
    falls short of it unless a line repeats.
   */
  ghost predicate BooksBalance(db: Db) {
    var plain := forall i :: 0 <= i < |db.settlements| ==> NothingRepeats(db.settlements[i].record.payouts);
    && (EntryTotal(db.entries) + PoolTotal(db.pools) == SettledTotal(db.settlements) <==> plain)
    && (forall b :: BalanceOf(db.entries, b) <= OwedByAll(db.settlements, b))
    && (plain ==> forall b :: BalanceOf(db.entries, b) == OwedByAll(db.settlements, b))
  }

  lemma BooksAreBalanced(db: Db)
    requires BooksInv(db)
    ensures BooksBalance(db)
  {
    hide NothingRepeats, BalanceOf, OwedByAll, EntryTotal, PoolTotal, SettledTotal, DroppedTotal, DroppedForAll, BooksInv;
    BalancedIff(db);
    forall b: string
      ensures BalanceOf(db.entries, b) <= OwedByAll(db.settlements, b)
      ensures (forall i :: 0 <= i < |db.settlements| ==> NothingRepeats(db.settlements[i].record.payouts)) ==>
                BalanceOf(db.entries, b) == OwedByAll(db.settlements, b)
    {
      BalanceIsOwed(db, b);
    }
  }
}

/** Allocating a pooled payout to the people behind the pool. */
module Pools {
  import opened Basics
  import opened Text
  import opened Evidence

  datatype Allocation = Allocation(beneficiaryId: string, wallet: Option<string>, amount: int)

  /** An entry owed from a pool, not yet paid. */
  datatype Accrued = Accrued(entryId: string, beneficiaryId: string, wallet: Option<string>, role: string, pool: string,
                             amount: int)

  function AllocationTotal(allocations: seq<Allocation>): int {
    if allocations == [] then 0
    else AllocationTotal(allocations[..|allocations| - 1]) + allocations[|allocations| - 1].amount
  }

  /** Named, positive, each beneficiary once. */
  ghost predicate AreShares(allocations: seq<Allocation>) {
    && (forall i :: 0 <= i < |allocations| ==> Trim(allocations[i].beneficiaryId) != "" && allocations[i].amount > 0)
    && forall i, j :: 0 <= i < j < |allocations| ==> allocations[i].beneficiaryId != allocations[j].beneficiaryId
  }

  /** The payout is pooled, and the shares come to exactly what it paid. */
  ghost predicate Allocatable(payout: PayoutLine, allocations: seq<Allocation>) {
    && payout.beneficiaryId.None? && allocations != []
    && AreShares(allocations) && AllocationTotal(allocations) == payout.amount
  }

  function AccruedFor(payout: PayoutLine, signature: string, allocation: Allocation): Accrued {
    Accrued(EntryId(signature, payout.role, allocation.beneficiaryId), allocation.beneficiaryId, allocation.wallet,
            payout.role, payout.recipient, allocation.amount)
  }

  function AccruedTotal(entries: seq<Accrued>): int {
    if entries == [] then 0 else AccruedTotal(entries[..|entries| - 1]) + entries[|entries| - 1].amount
  }

  /** Different beneficiaries of one pool have different entries, whatever characters their ids hold. */
  lemma EntriesDiffer(signature: string, role: string, a: string, b: string)
    requires EntryId(signature, role, a) == EntryId(signature, role, b)
    ensures a == b
  {
    var prefix := |signature| + 1 + |role| + 1;
    assert a == EntryId(signature, role, a)[prefix..];
    assert b == EntryId(signature, role, b)[prefix..];
  }

  lemma NoShares(allocations: seq<Allocation>)
    ensures AreShares(allocations[..0]) && AllocationTotal(allocations[..0]) == 0
  {}

  /** What one more share adds, and what it must be. */
  lemma NextShare(allocations: seq<Allocation>, i: nat)
    requires i < |allocations|
    ensures AllocationTotal(allocations[..i + 1]) == AllocationTotal(allocations[..i]) + allocations[i].amount
    ensures AreShares(allocations[..i + 1]) <==>
              && AreShares(allocations[..i])
              && Trim(allocations[i].beneficiaryId) != "" && allocations[i].amount > 0
              && forall k :: 0 <= k < i ==> allocations[k].beneficiaryId != allocations[i].beneficiaryId
    ensures AreShares(allocations) ==> AreShares(allocations[..i + 1])
  {
    hide Trim;
    assert allocations[..i + 1][..i] == allocations[..i];
    if AreShares(allocations[..i + 1]) {
      forall k | 0 <= k < i
        ensures allocations[k].beneficiaryId != allocations[i].beneficiaryId
      {
        assert allocations[..i + 1][k] == allocations[k] && allocations[..i + 1][i] == allocations[i];
      }
    }
  }

  /** The shares' total, when they are named, positive and different. */
  method TotalShares(allocations: seq<Allocation>) returns (r: Option<int>)
    ensures r == if AreShares(allocations) then Some(AllocationTotal(allocations)) else None
  {
    hide Trim, AreShares, AllocationTotal;
    var ids: set<string> := {};
    var total := 0;
    NoShares(allocations);
    for i := 0 to |allocations|
      invariant forall k :: 0 <= k < i ==> allocations[k].beneficiaryId in ids
      invariant forall id :: id in ids ==> exists k :: 0 <= k < i && allocations[k].beneficiaryId == id
      invariant AreShares(allocations[..i])
      invariant total == AllocationTotal(allocations[..i])
    {
      NextShare(allocations, i);
      var allocation := allocations[i];
      if Trim(allocation.beneficiaryId) == "" || allocation.amount <= 0 || allocation.beneficiaryId in ids {
        return None;
      }
      ids := ids + {allocation.beneficiaryId};
      total := total + allocation.amount;
    }
    assert allocations[..|allocations|] == allocations;
    return Some(total);
  }

  /** One entry per share, in order. */
  method Accrue(payout: PayoutLine, signature: string, allocations: seq<Allocation>) returns (entries: seq<Accrued>)
    ensures |entries| == |allocations| && AccruedTotal(entries) == AllocationTotal(allocations)
    ensures forall i :: 0 <= i < |entries| ==> entries[i] == AccruedFor(payout, signature, allocations[i])
  {
    entries := [];
    for i := 0 to |allocations|
      invariant |entries| == i && AccruedTotal(entries) == AllocationTotal(allocations[..i])
      invariant forall k :: 0 <= k < i ==> entries[k] == AccruedFor(payout, signature, allocations[k])
    {
      assert allocations[..i + 1][..i] == allocations[..i];
      var entry := AccruedFor(payout, signature, allocations[i]);
      assert (entries + [entry])[..i] == entries;
      entries := entries + [entry];
    }
    assert allocations[..|allocations|] == allocations;
  }

  /**
    Entries exactly when the allocation is acceptable: one per share, together
    what the pool was paid, and no two with one id.
   */
  method AllocatePoolPayout(payout: PayoutLine, signature: string, allocations: seq<Allocation>)
    returns (r: Option<seq<Accrued>>)
    ensures r.Some? <==> Allocatable(payout, allocations)
    ensures r.Some? ==>
              && |r.value| == |allocations| && AccruedTotal(r.value) == payout.amount
              && (forall i :: 0 <= i < |r.value| ==> r.value[i] == AccruedFor(payout, signature, allocations[i]))
              && forall i, j :: 0 <= i < j < |r.value| ==> r.value[i].entryId != r.value[j].entryId
  {
    hide AllocationTotal, AccruedTotal, Trim, EntryId;
    if payout.beneficiaryId.Some? || allocations == [] {
      return None;
    }
    var total := TotalShares(allocations);
    if total != Some(payout.amount) {
      return None;
    }
    var entries := Accrue(payout, signature, allocations);
    forall i, j | 0 <= i < j < |entries|
      ensures entries[i].entryId != entries[j].entryId
    {
      if entries[i].entryId == entries[j].entryId {
        EntriesDiffer(signature, payout.role, allocations[i].beneficiaryId, allocations[j].beneficiaryId);
      }
    }
    return Some(entries);
  }
}

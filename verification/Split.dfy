/**
  The basis-point split. `Split` says what a split is, over unbounded numbers;
  the two implementations, one in fixed-width and one in unbounded arithmetic,
  are methods proved against it.
 */
module Splits {
  import opened Basics

  const BPS_DENOMINATOR: nat := 10_000
  const MAX_SHARES: nat := 8

  datatype SplitError = ShareCount | ZeroAmount | BpsOutOfRange | BpsSumNotDenominator

  /** The floored payouts of a list of shares. */
  function Floors(amount: int, bps: seq<int>): (f: seq<int>)
    ensures |f| == |bps|
  {
    seq(|bps|, i requires 0 <= i < |bps| => amount * bps[i] / BPS_DENOMINATOR)
  }

  /** Every share but the last is floored; the last takes what remains. */
  function Payouts(amount: int, bps: seq<int>): (p: seq<int>)
    requires bps != []
    ensures |p| == |bps|
  {
    var floors := Floors(amount, bps[..|bps| - 1]);
    floors + [amount - Sum(floors)]
  }

  predicate ValidBps(bps: seq<int>) {
    && 1 <= |bps| <= MAX_SHARES
    && InRange(bps)
    && Sum(bps) == BPS_DENOMINATOR
  }

  predicate InRange(bps: seq<int>) {
    forall i :: 0 <= i < |bps| ==> 0 <= bps[i] <= BPS_DENOMINATOR
  }

  /** The split of any amount, or the first of the four refusals that applies. */
  function Split(amount: int, bps: seq<int>): (r: Result<seq<int>, SplitError>)
    ensures r.Ok? <==> amount > 0 && InRange(bps) && ValidBps(bps)
  {
    if |bps| == 0 || |bps| > MAX_SHARES then Err(ShareCount)
    else if amount <= 0 then Err(ZeroAmount)
    else if !InRange(bps) then Err(BpsOutOfRange)
    else if Sum(bps) != BPS_DENOMINATOR then Err(BpsSumNotDenominator)
    else Ok(Payouts(amount, bps))
  }

  // ----- What the split promises -----

  /** Floors lose less than one unit per share. */
  lemma {:induction false} FloorsBound(amount: nat, bps: seq<int>)
    ensures BPS_DENOMINATOR * Sum(Floors(amount, bps)) <= amount * Sum(bps)
    ensures bps != [] ==>
              amount * Sum(bps) < BPS_DENOMINATOR * (Sum(Floors(amount, bps)) + |bps|)
  {
    if bps != [] {
      var rest := Floors(amount, bps[1..]);
      assert Floors(amount, bps)[1..] == rest;
      FloorsBound(amount, bps[1..]);
      assert amount * Sum(bps) == amount * bps[0] + amount * Sum(bps[1..]);
    }
  }

  lemma ShareBounded(amount: nat, b: int)
    requires 0 <= b <= BPS_DENOMINATOR
    ensures 0 <= amount * b / BPS_DENOMINATOR <= amount
  {}

  /** Linear form of the bounds, with the products as separate numbers. */
  lemma RemainderArithmetic(amount: nat, floors: int, head: int, last: int, n: nat)
    requires head + last == BPS_DENOMINATOR
    requires BPS_DENOMINATOR * floors <= amount * head
    requires n > 0 ==> amount * head < BPS_DENOMINATOR * (floors + n)
    ensures amount * last <= BPS_DENOMINATOR * (amount - floors)
    ensures n > 0 ==> BPS_DENOMINATOR * (amount - floors) < amount * last + BPS_DENOMINATOR * n
  {}

  /** What is left for the last share, against its exact share. */
  lemma Remainder(amount: nat, bps: seq<int>, n: nat, floors: int)
    requires ValidBps(bps) && n == |bps| - 1 && floors == Sum(Floors(amount, bps[..n]))
    ensures amount * bps[n] <= BPS_DENOMINATOR * (amount - floors)
    ensures n > 0 ==> BPS_DENOMINATOR * (amount - floors) < amount * bps[n] + BPS_DENOMINATOR * n
    ensures n == 0 ==> floors == 0
  {
    FloorsBound(amount, bps[..n]);
    SumPrefix(bps, n);
    assert bps[..n + 1] == bps;
    RemainderArithmetic(amount, floors, Sum(bps[..n]), bps[n], n);
  }

  /**
    Conservation and fairness of a valid split: the payouts are non-negative,
    sum to the amount, are exact floors but for the last, and the last exceeds
    its exact share by less than one unit per other share (by nothing at all
    when it is the only one).
   */
  lemma SplitIsFair(amount: nat, bps: seq<int>)
    requires ValidBps(bps)
    ensures var p := Payouts(amount, bps);
            var n := |bps| - 1;
            && (forall i :: 0 <= i <= n ==> 0 <= p[i] <= amount)
            && Sum(p) == amount
            && (forall i :: 0 <= i < n ==>
                  BPS_DENOMINATOR * p[i] <= amount * bps[i] < BPS_DENOMINATOR * (p[i] + 1))
            && amount * bps[n] <= BPS_DENOMINATOR * p[n]
            && (n > 0 ==> BPS_DENOMINATOR * p[n] < amount * bps[n] + BPS_DENOMINATOR * n)
            && (n == 0 ==> p[n] == amount)
  {
    var n := |bps| - 1;
    var floors := Floors(amount, bps[..n]);
    Remainder(amount, bps, n, Sum(floors));
    PartialSumFits(amount, bps, n);
    assert floors[..n] == floors;
    SumAppend(floors, [amount - Sum(floors)]);
    forall i | 0 <= i < n
      ensures floors[i] == amount * bps[i] / BPS_DENOMINATOR && 0 <= floors[i] <= amount
    {
      ShareBounded(amount, bps[i]);
    }
  }

  lemma FloorsPrefix(amount: nat, bps: seq<int>, i: nat)
    requires i <= |bps|
    ensures Floors(amount, bps)[..i] == Floors(amount, bps[..i])
  {}

  /** The floors handed out so far are between nothing and the amount. */
  lemma PartialSumFits(amount: nat, bps: seq<int>, i: nat)
    requires ValidBps(bps) && i < |bps|
    ensures 0 <= Sum(Floors(amount, bps[..|bps| - 1])[..i]) <= amount
  {
    hide Floors, Sum;
    var head, tail := bps[..i], bps[i..];
    FloorsPrefix(amount, bps[..|bps| - 1], i);
    assert bps[..|bps| - 1][..i] == head;
    FloorsBound(amount, head);
    FloorsNonNegative(amount, head);
    assert head + tail == bps;
    SumAppend(head, tail);
    SumBound(tail);
    Fits(amount, Sum(Floors(amount, head)), Sum(head));
  }

  lemma Fits(amount: nat, floors: int, head: int)
    requires BPS_DENOMINATOR * floors <= amount * head && head <= BPS_DENOMINATOR
    ensures floors <= amount
  {}

  lemma {:induction false} FloorsNonNegative(amount: nat, bps: seq<int>)
    requires InRange(bps)
    ensures 0 <= Sum(Floors(amount, bps))
  {
    if bps != [] {
      assert Floors(amount, bps)[1..] == Floors(amount, bps[1..]);
      ShareBounded(amount, bps[0]);
      FloorsNonNegative(amount, bps[1..]);
    }
  }

  // ----- The fixed-width implementation -----

  function SaturatingMulU128(a: u64, b: u16): (r: u128) {
    if a * b < U128_LIMIT then a * b else U128_LIMIT - 1
  }

  function SaturatingAddU64(a: u64, b: u64): (r: u64) {
    if a + b < U64_LIMIT then a + b else U64_LIMIT - 1
  }

  function CastU64(a: u128): (r: u64) {
    a % U64_LIMIT
  }

  function CheckedSubU64(a: u64, b: u64): (r: Option<u64>) {
    if b <= a then Some(a - b) else None
  }

  /** The shares seen so far are in range, so their sum cannot leave 32 bits. */
  lemma {:induction false} SumBound(bps: seq<int>)
    requires InRange(bps)
    ensures 0 <= Sum(bps) <= BPS_DENOMINATOR * |bps|
  {
    if bps != [] {
      SumBound(bps[1..]);
    }
  }

  /**
    The program's splitter over u64 amounts and u16 shares, written into `out`.
    Its saturating product, its narrowing cast, its saturating sum and its
    checked subtraction never lose anything: it is exactly `Split`.
   */
  method SplitShares(amount: u64, bps: seq<u16>, out: array<u64>) returns (r: Result<(), SplitError>)
    modifies out
    ensures out.Length != |bps| ==> r == Err(ShareCount)
    ensures out.Length == |bps| ==>
              match Split(amount, bps)
              case Ok(payouts) => r == Ok(()) && out[..] == payouts
              case Err(e) => r == Err(e)
    ensures r.Err? ==> out[..] == old(out[..])
  {
    var n := |bps|;
    if n == 0 || n > MAX_SHARES || out.Length != n {
      return Err(ShareCount);
    }
    if amount == 0 {
      return Err(ZeroAmount);
    }
    var sum: u32 := 0;
    for i := 0 to n
      invariant InRange(bps[..i])
      invariant sum == Sum(bps[..i])
      invariant out[..] == old(out[..])
    {
      if bps[i] > BPS_DENOMINATOR {
        return Err(BpsOutOfRange);
      }
      SumPrefix(bps, i);
      SumBound(bps[..i]);
      sum := sum + bps[i];
    }
    assert bps[..n] == bps;
    if sum as nat != BPS_DENOMINATOR {
      return Err(BpsSumNotDenominator);
    }
    ghost var floors := Floors(amount, bps[..n - 1]);
    SplitIsFair(amount, bps);
    assert Payouts(amount, bps) == floors + [amount - Sum(floors)];
    var handedOut: u64 := 0;
    for i := 0 to n
      invariant i < n ==> handedOut == Sum(floors[..i])
      invariant out[..i] == Payouts(amount, bps)[..i]
    {
      if i + 1 == n {
        assert floors[..i] == floors;
        var rest := CheckedSubU64(amount, handedOut);
        assert rest == Some(amount - Sum(floors));
        if rest.None? {
          return Err(ZeroAmount);
        }
        out[i] := rest.value;
      } else {
        PartFits(amount, bps[i]);
        var part := SaturatingMulU128(amount, bps[i]) / BPS_DENOMINATOR;
        out[i] := CastU64(part);
        assert out[i] == floors[i];
        SumPrefix(floors, i);
        PartialSumFits(amount, bps, i + 1);
        handedOut := SaturatingAddU64(handedOut, out[i]);
      }
    }
    assert out[..] == out[..n];
    r := Ok(());
  }

  /** A share of a u64 never saturates the product or overflows the cast. */
  lemma PartFits(amount: u64, share: u16)
    requires share <= BPS_DENOMINATOR
    ensures SaturatingMulU128(amount, share) == amount * share
    ensures CastU64(SaturatingMulU128(amount, share) / BPS_DENOMINATOR) == amount * share / BPS_DENOMINATOR
  {
    ShareBounded(amount, share);
  }

  // ----- The unbounded implementation -----

  /** The client's check of a list of shares; it repeats the count check. */
  method AssertBpsShares(bps: seq<int>) returns (r: Result<(), SplitError>)
    ensures match Split(1, bps) case Ok(_) => r == Ok(()) case Err(e) => r == Err(e)
  {
    if |bps| == 0 || |bps| > MAX_SHARES {
      return Err(ShareCount);
    }
    var sum := 0;
    for i := 0 to |bps|
      invariant InRange(bps[..i])
      invariant sum == Sum(bps[..i])
    {
      if bps[i] < 0 || bps[i] > BPS_DENOMINATOR {
        return Err(BpsOutOfRange);
      }
      assert bps[..i + 1] == bps[..i] + [bps[i]];
      SumAppend(bps[..i], [bps[i]]);
      sum := sum + bps[i];
    }
    assert bps[..|bps|] == bps;
    if sum != BPS_DENOMINATOR {
      return Err(BpsSumNotDenominator);
    }
    return Ok(());
  }

  /**
    The client's splitter over unbounded amounts and shares. On u64 amounts and
    u16 shares it answers what the program answers, refusals included.
   */
  method SplitAmountAtomicShares(amount: int, bps: seq<int>) returns (r: Result<seq<int>, SplitError>)
    ensures r == Split(amount, bps)
  {
    if |bps| == 0 || |bps| > MAX_SHARES {
      return Err(ShareCount);
    }
    if amount <= 0 {
      return Err(ZeroAmount);
    }
    var checked := AssertBpsShares(bps);
    if checked.Err? {
      return Err(checked.error);
    }
    ghost var floors := Floors(amount, bps[..|bps| - 1]);
    assert Payouts(amount, bps) == floors + [amount - Sum(floors)];
    var payouts: seq<int> := [];
    var handedOut := 0;
    for i := 0 to |bps|
      invariant payouts == Payouts(amount, bps)[..i]
      invariant i < |bps| ==> handedOut == Sum(floors[..i])
    {
      if i == |bps| - 1 {
        assert floors[..i] == floors;
        payouts := payouts + [amount - handedOut];
      } else {
        var part := amount * bps[i] / BPS_DENOMINATOR;
        assert part == floors[i];
        SumPrefix(floors, i);
        payouts := payouts + [part];
        handedOut := handedOut + part;
      }
    }
    assert Payouts(amount, bps)[..|bps|] == Payouts(amount, bps);
    return Ok(payouts);
  }
}

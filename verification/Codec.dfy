/** Little-endian numbers in byte strings. */
module LittleEndian {
  import opened Basics

  function Pow256(width: nat): (p: nat)
    ensures p > 0
  {
    if width == 0 then 1 else 256 * Pow256(width - 1)
  }

  function Le(n: nat, width: nat): (b: seq<byte>)
    ensures |b| == width
  {
    if width == 0 then [] else [n % 256] + Le(n / 256, width - 1)
  }

  function FromLe(b: seq<byte>): nat {
    if b == [] then 0 else b[0] + 256 * FromLe(b[1..])
  }

  lemma {:induction false} FromLeBound(b: seq<byte>)
    ensures FromLe(b) < Pow256(|b|)
  {
    if b != [] {
      FromLeBound(b[1..]);
    }
  }

  lemma {:induction false} FromLeOfLe(n: nat, width: nat)
    requires n < Pow256(width)
    ensures FromLe(Le(n, width)) == n
  {
    if width > 0 {
      assert n / 256 < Pow256(width - 1);
      FromLeOfLe(n / 256, width - 1);
      assert Le(n, width)[1..] == Le(n / 256, width - 1);
    }
  }

  lemma {:induction false} LeOfFromLe(b: seq<byte>)
    ensures Le(FromLe(b), |b|) == b
  {
    if b != [] {
      LeOfFromLe(b[1..]);
      assert FromLe(b) % 256 == b[0] && FromLe(b) / 256 == FromLe(b[1..]);
    }
  }

  lemma Widths()
    ensures Pow256(2) == U16_LIMIT && Pow256(8) == U64_LIMIT
  {}
}

/**
  The instruction codec: the program's packer and unpacker, and the client's
  encoders and decoders, which must agree byte for byte.
 */
module Codec {
  import opened Basics
  import opened LittleEndian
  import opened Splits

  const CREATE_NAMESPACE_TAG: byte := 3
  const SET_NAMESPACE_AUTHORITY_TAG: byte := 4
  const SETTLE_N_TAG: byte := 5
  const SETTLE_TOKEN_N_TAG: byte := 6

  datatype Instruction =
    | CreateNamespace(namespaceId: Key, authority: Key)
    | SetNamespaceAuthority(newAuthority: Key)
    | SettleN(eventId: Key, amount: u64, bps: seq<u16>)
    | SettleTokenN(eventId: Key, amount: u64, decimals: byte, bps: seq<u16>)

  /** The shares, two bytes each. */
  function PackBps(bps: seq<u16>): (b: seq<byte>)
    ensures |b| == 2 * |bps|
  {
    if bps == [] then [] else PackBps(bps[..|bps| - 1]) + Le(bps[|bps| - 1], 2)
  }

  function BpsOf(bytes: seq<byte>, count: nat): (bps: seq<u16>)
    requires 2 * count <= |bytes|
    ensures |bps| == count
  {
    if count == 0 then []
    else
      var pair := bytes[2 * (count - 1)..2 * count];
      FromLeBound(pair);
      Widths();
      BpsOf(bytes, count - 1) + [FromLe(pair)]
  }

  function ReadU64(bytes: seq<byte>): (n: u64)
    requires |bytes| == 8
    ensures Le(n, 8) == bytes
  {
    FromLeBound(bytes);
    LeOfFromLe(bytes);
    Widths();
    FromLe(bytes)
  }

  /** The wire form; the share count keeps only its low byte. */
  function Packed(ix: Instruction): seq<byte> {
    match ix
    case CreateNamespace(id, authority) => [CREATE_NAMESPACE_TAG] + id + authority
    case SetNamespaceAuthority(newAuthority) => [SET_NAMESPACE_AUTHORITY_TAG] + newAuthority
    case SettleN(eventId, amount, bps) =>
      [SETTLE_N_TAG] + SettleBody(eventId, amount, [], bps)
    case SettleTokenN(eventId, amount, decimals, bps) =>
      [SETTLE_TOKEN_N_TAG] + SettleBody(eventId, amount, [decimals], bps)
  }

  /** What follows the tag of a settlement; `extra` holds the decimals of a token one. */
  function SettleBody(eventId: Key, amount: u64, extra: seq<byte>, bps: seq<u16>): seq<byte> {
    eventId + Le(amount, 8) + extra + [|bps| % 256] + PackBps(bps)
  }

  /** The program's reading of instruction data, `None` when it refuses it. */
  function Unpack(data: seq<byte>): Option<Instruction> {
    if data == [] then None
    else
      var tag, rest := data[0], data[1..];
      if tag == CREATE_NAMESPACE_TAG then
        if |rest| != 64 then None else Some(CreateNamespace(rest[..32], rest[32..]))
      else if tag == SET_NAMESPACE_AUTHORITY_TAG then
        if |rest| != 32 then None else Some(SetNamespaceAuthority(rest))
      else if tag == SETTLE_N_TAG then
        match UnpackBody(rest, 0)
        case Some((eventId, amount, _, bps)) => Some(SettleN(eventId, amount, bps))
        case None => None
      else if tag == SETTLE_TOKEN_N_TAG then
        match UnpackBody(rest, 1)
        case Some((eventId, amount, extra, bps)) => Some(SettleTokenN(eventId, amount, extra[0], bps))
        case None => None
      else None
  }

  /** A settlement's fields, with `extra` bytes between the amount and the share count. */
  function UnpackBody(rest: seq<byte>, extra: nat): (r: Option<(Key, u64, seq<byte>, seq<u16>)>)
    ensures r.Some? ==> |r.value.2| == extra
  {
    if |rest| < 41 + extra then None
    else
      var count := rest[40 + extra];
      if count == 0 || count > MAX_SHARES || |rest| != 41 + extra + 2 * count then None
      else Some((rest[..32], ReadU64(rest[32..40]), rest[40..40 + extra], BpsOf(rest[41 + extra..], count)))
  }

  // ----- Round trips -----

  lemma {:induction false} BpsOfPackBps(bps: seq<u16>, tail: seq<byte>)
    ensures BpsOf(PackBps(bps) + tail, |bps|) == bps
  {
    if bps != [] {
      var n := |bps| - 1;
      var last := Le(bps[n], 2);
      assert PackBps(bps) + tail == PackBps(bps[..n]) + (last + tail);
      BpsOfPackBps(bps[..n], last + tail);
      Widths();
      FromLeOfLe(bps[n], 2);
      assert (PackBps(bps) + tail)[2 * n..2 * n + 2] == last;
    }
  }

  lemma {:induction false} PackBpsOfBpsOf(bytes: seq<byte>, count: nat)
    requires 2 * count <= |bytes|
    ensures PackBps(BpsOf(bytes, count)) == bytes[..2 * count]
  {
    if count > 0 {
      var bps := BpsOf(bytes, count);
      assert bps[..count - 1] == BpsOf(bytes, count - 1);
      PackBpsOfBpsOf(bytes, count - 1);
      LeOfFromLe(bytes[2 * (count - 1)..2 * count]);
    }
  }

  predicate Packable(ix: Instruction) {
    match ix
    case SettleN(_, _, bps) => 1 <= |bps| <= MAX_SHARES
    case SettleTokenN(_, _, _, bps) => 1 <= |bps| <= MAX_SHARES
    case _ => true
  }

  lemma UnpackBodyOfBody(eventId: Key, amount: u64, extra: seq<byte>, bps: seq<u16>)
    ensures UnpackBody(SettleBody(eventId, amount, extra, bps), |extra|) ==
            if 1 <= |bps| <= MAX_SHARES then Some((eventId, amount, extra, bps)) else None
  {
    var rest, n := SettleBody(eventId, amount, extra, bps), |extra|;
    assert rest[..32] == eventId;
    assert rest[32..40] == Le(amount, 8);
    assert rest[40..40 + n] == extra;
    assert rest[40 + n] == |bps| % 256;
    assert rest[41 + n..] == PackBps(bps) == PackBps(bps) + [];
    if 1 <= |bps| <= MAX_SHARES {
      Widths();
      FromLeOfLe(amount, 8);
      BpsOfPackBps(bps, []);
    }
  }

  /** A byte string is the concatenation of its five consecutive fields. */
  lemma Rejoined(rest: seq<byte>, extra: nat)
    requires |rest| >= 41 + extra
    ensures rest == rest[..32] + rest[32..40] + rest[40..40 + extra] + [rest[40 + extra]] + rest[41 + extra..]
  {}

  lemma BodyOfUnpackBody(rest: seq<byte>, extra: nat)
    requires UnpackBody(rest, extra).Some?
    ensures var (eventId, amount, middle, bps) := UnpackBody(rest, extra).value;
            1 <= |bps| <= MAX_SHARES && SettleBody(eventId, amount, middle, bps) == rest
  {
    var count := rest[40 + extra];
    var tail := rest[41 + extra..];
    PackBpsOfBpsOf(tail, count);
    assert |tail| == 2 * count && tail[..2 * count] == tail;
    Rejoined(rest, extra);
    hide BpsOf, PackBps, Le, FromLe;
    var (eventId, amount, middle, bps) := UnpackBody(rest, extra).value;
    assert Le(amount, 8) == rest[32..40] && |bps| == count && PackBps(bps) == tail;
  }

  /** A settlement's bytes as its two encoders produce them, front to back. */
  lemma SettleBytes(tag: byte, eventId: Key, amount: u64, extra: seq<byte>, bps: seq<u16>)
    ensures [tag] + SettleBody(eventId, amount, extra, bps)
         == ([tag] + eventId + Le(amount, 8)) + extra + [|bps| % 256] + PackBps(bps)
  {}

  /**
    Unpacking what was packed gives it back exactly when the share list has one
    to eight entries; any other list, a truncated count included, is refused.
   */
  lemma UnpackPacked(ix: Instruction)
    ensures Unpack(Packed(ix)) == if Packable(ix) then Some(ix) else None
  {
    match ix
    case CreateNamespace(id, authority) =>
      assert Packed(ix)[1..] == id + authority;
    case SetNamespaceAuthority(newAuthority) =>
      assert Packed(ix)[1..] == newAuthority;
    case SettleN(eventId, amount, bps) =>
      assert Packed(ix)[1..] == SettleBody(eventId, amount, [], bps);
      UnpackBodyOfBody(eventId, amount, [], bps);
    case SettleTokenN(eventId, amount, decimals, bps) =>
      assert Packed(ix)[1..] == SettleBody(eventId, amount, [decimals], bps);
      UnpackBodyOfBody(eventId, amount, [decimals], bps);
  }

  /** Every accepted byte string is the packed form of what it decodes to. */
  lemma PackedUnpack(data: seq<byte>)
    requires Unpack(data).Some?
    ensures Packable(Unpack(data).value) && Packed(Unpack(data).value) == data
  {
    var rest := data[1..];
    assert data == [data[0]] + rest;
    match Unpack(data).value
    case CreateNamespace(_, _) =>
      assert rest == rest[..32] + rest[32..];
    case SetNamespaceAuthority(_) =>
    case SettleN(_, _, _) =>
      BodyOfUnpackBody(rest, 0);
      assert rest[40..40] == [];
    case SettleTokenN(_, _, _, _) =>
      BodyOfUnpackBody(rest, 1);
      assert rest[40..41] == [rest[40]];
  }

  // ----- The program's packer and share reader -----

  method Pack(ix: Instruction) returns (out: seq<byte>)
    ensures out == Packed(ix)
  {
    match ix
    case CreateNamespace(id, authority) =>
      out := [CREATE_NAMESPACE_TAG];
      out := out + id;
      out := out + authority;
    case SetNamespaceAuthority(newAuthority) =>
      out := [SET_NAMESPACE_AUTHORITY_TAG];
      out := out + newAuthority;
    case SettleN(eventId, amount, bps) =>
      out := PackSettle(SETTLE_N_TAG, eventId, amount, [], bps);
    case SettleTokenN(eventId, amount, decimals, bps) =>
      out := PackSettle(SETTLE_TOKEN_N_TAG, eventId, amount, [decimals], bps);
  }

  method PackSettle(tag: byte, eventId: Key, amount: u64, extra: seq<byte>, bps: seq<u16>) returns (out: seq<byte>)
    ensures out == [tag] + SettleBody(eventId, amount, extra, bps)
  {
    out := [tag];
    out := out + eventId;
    out := out + Le(amount, 8);
    out := out + extra;
    out := out + [|bps| % 256];
    out := AppendBps(out, bps);
    SettleBytes(tag, eventId, amount, extra, bps);
  }

  method AppendBps(prefix: seq<byte>, bps: seq<u16>) returns (out: seq<byte>)
    ensures out == prefix + PackBps(bps)
  {
    out := prefix;
    for i := 0 to |bps|
      invariant out == prefix + PackBps(bps[..i])
    {
      assert bps[..i + 1][..i] == bps[..i];
      out := out + Le(bps[i], 2);
    }
    assert bps[..|bps|] == bps;
  }

  method ReadBps(bytes: seq<byte>, count: nat) returns (bps: seq<u16>)
    requires 2 * count <= |bytes|
    ensures bps == BpsOf(bytes, count)
  {
    bps := [];
    for i := 0 to count
      invariant bps == BpsOf(bytes, i)
    {
      var start := 2 * i;
      FromLeBound(bytes[start..start + 2]);
      Widths();
      bps := bps + [FromLe(bytes[start..start + 2])];
    }
  }

  // ----- The client's encoders, over byte arrays -----

  datatype EncodeError = SeedLength | AmountU64 | Bps(split: SplitError) | TokenDecimals

  /** What a client may put in a settlement; anything else is refused, in this order. */
  function EncodedSettleN(seed: seq<byte>, amount: int, bps: seq<int>): (r: Result<seq<byte>, EncodeError>)
  {
    if |seed| != 32 then Err(SeedLength)
    else if !(0 < amount < U64_LIMIT) then Err(AmountU64)
    else match Split(1, bps)
      case Err(e) => Err(Bps(e))
      case Ok(_) => Ok(Packed(SettleN(seed, amount, bps)))
  }

  function EncodedSettleTokenN(seed: seq<byte>, amount: int, decimals: int, bps: seq<int>)
    : (r: Result<seq<byte>, EncodeError>)
  {
    if |seed| != 32 then Err(SeedLength)
    else if !(0 < amount < U64_LIMIT) then Err(AmountU64)
    else match Split(1, bps)
      case Err(e) => Err(Bps(e))
      case Ok(_) =>
        if !(0 <= decimals <= 255) then Err(TokenDecimals)
        else Ok(Packed(SettleTokenN(seed, amount, decimals, bps)))
  }

  lemma LeStep(value: nat, width: nat)
    requires width > 0
    ensures Le(value, width)[0] == value % 256 && Le(value, width)[1..] == Le(value / 256, width - 1)
  {}

  /** Write a number into a buffer, low byte first. */
  method SetLittleEndian(data: array<byte>, at: nat, value: nat, width: nat)
    requires at + width <= data.Length
    modifies data
    ensures data[..] == old(data[..at]) + Le(value, width) + old(data[at + width..])
  {
    hide Le;
    var rest := value;
    for i := 0 to width
      invariant Le(value, width) == Le(value, width)[..i] + Le(rest, width - i)
      invariant data[..at + i] == old(data[..at]) + Le(value, width)[..i]
      invariant data[at + i..] == old(data[at + i..])
    {
      LeStep(rest, width - i);
      assert Le(value, width)[i] == rest % 256;
      data[at + i] := rest % 256;
      assert data[..at + i + 1] == data[..at + i] + [rest % 256];
      rest := rest / 256;
    }
    assert data[..] == data[..at + width] + data[at + width..];
    assert Le(value, width)[..width] == Le(value, width);
  }

  /** Copy bytes into a buffer. */
  method SetBytes(data: array<byte>, at: nat, bytes: seq<byte>)
    requires at + |bytes| <= data.Length
    modifies data
    ensures data[..] == old(data[..at]) + bytes + old(data[at + |bytes|..])
  {
    for i := 0 to |bytes|
      invariant data[..at + i] == old(data[..at]) + bytes[..i]
      invariant data[at + i..] == old(data[at + i..])
    {
      data[at + i] := bytes[i];
      assert data[..at + i + 1] == data[..at + i] + [bytes[i]];
    }
    assert data[..] == data[..at + |bytes|] + data[at + |bytes|..];
  }

  /** Write the shares from `at` to the end of the buffer. */
  method SetShares(data: array<byte>, at: nat, bps: seq<u16>)
    requires at + 2 * |bps| == data.Length
    modifies data
    ensures data[..] == old(data[..at]) + PackBps(bps)
  {
    for i := 0 to |bps|
      invariant data[..at + 2 * i] == old(data[..at]) + PackBps(bps[..i])
    {
      ghost var before := data[..at + 2 * i];
      SetLittleEndian(data, at + 2 * i, bps[i], 2);
      assert data[..at + 2 * (i + 1)] == before + Le(bps[i], 2);
      assert bps[..i + 1][..i] == bps[..i];
    }
    assert bps[..|bps|] == bps;
    assert data[..] == data[..at + 2 * |bps|];
  }

  /** The fields both settlements start with: tag, event seed and amount. */
  method SetHeader(data: array<byte>, tag: byte, seed: Key, amount: u64)
    requires data.Length >= 41
    modifies data
    ensures data[..41] == [tag] + seed + Le(amount, 8)
  {
    data[0] := tag;
    SetBytes(data, 1, seed);
    assert data[..33] == [tag] + seed;
    ghost var head := data[..33];
    SetLittleEndian(data, 33, amount, 8);
    assert data[..41] == head + Le(amount, 8);
  }

  method FillSettlement(data: array<byte>, tag: byte, seed: Key, amount: u64, extra: seq<byte>, bps: seq<u16>)
    requires |bps| < 256
    requires data.Length == 42 + |extra| + 2 * |bps|
    modifies data
    ensures data[..] == [tag] + SettleBody(seed, amount, extra, bps)
  {
    SetHeader(data, tag, seed, amount);
    ghost var header := data[..41];
    SetBytes(data, 41, extra);
    assert data[..41 + |extra|] == header + extra;
    data[41 + |extra|] := |bps|;
    assert data[..42 + |extra|] == header + extra + [|bps|];
    SetShares(data, 42 + |extra|, bps);
    SettleBytes(tag, seed, amount, extra, bps);
  }

  method EncodeSettleNData(seed: seq<byte>, amount: int, bps: seq<int>) returns (r: Result<seq<byte>, EncodeError>)
    ensures r == EncodedSettleN(seed, amount, bps)
  {
    if |seed| != 32 {
      return Err(SeedLength);
    }
    if amount <= 0 || amount > U64_LIMIT - 1 {
      return Err(AmountU64);
    }
    var checked := AssertBpsShares(bps);
    if checked.Err? {
      return Err(Bps(checked.error));
    }
    var data := new byte[42 + 2 * |bps|];
    FillSettlement(data, SETTLE_N_TAG, seed, amount, [], bps);
    return Ok(data[..]);
  }

  method EncodeSettleTokenNData(seed: seq<byte>, amount: int, decimals: int, bps: seq<int>)
    returns (r: Result<seq<byte>, EncodeError>)
    ensures r == EncodedSettleTokenN(seed, amount, decimals, bps)
  {
    if |seed| != 32 {
      return Err(SeedLength);
    }
    if amount <= 0 || amount > U64_LIMIT - 1 {
      return Err(AmountU64);
    }
    var checked := AssertBpsShares(bps);
    if checked.Err? {
      return Err(Bps(checked.error));
    }
    if decimals < 0 || decimals > 255 {
      return Err(TokenDecimals);
    }
    var data := new byte[43 + 2 * |bps|];
    FillSettlement(data, SETTLE_TOKEN_N_TAG, seed, amount, [decimals], bps);
    return Ok(data[..]);
  }

  /**
    Everything the client encodes, the program unpacks to exactly what was
    asked for and accepts as a split.
   */
  lemma EncodedIsAccepted(seed: seq<byte>, amount: int, decimals: int, bps: seq<int>)
    ensures EncodedSettleN(seed, amount, bps).Ok? ==>
              && Unpack(EncodedSettleN(seed, amount, bps).value) == Some(SettleN(seed, amount, bps))
              && Split(amount, bps).Ok?
    ensures EncodedSettleTokenN(seed, amount, decimals, bps).Ok? ==>
              && Unpack(EncodedSettleTokenN(seed, amount, decimals, bps).value)
                 == Some(SettleTokenN(seed, amount, decimals, bps))
              && Split(amount, bps).Ok?
  {
    if EncodedSettleN(seed, amount, bps).Ok? {
      UnpackPacked(SettleN(seed, amount, bps));
    }
    if EncodedSettleTokenN(seed, amount, decimals, bps).Ok? {
      UnpackPacked(SettleTokenN(seed, amount, decimals, bps));
    }
  }

  // ----- The client's decoders, over whole instruction data -----

  function DecodeSettleNData(bytes: seq<byte>): Option<Instruction> {
    if |bytes| < 42 || bytes[0] != SETTLE_N_TAG then None
    else
      var count := bytes[41];
      if count == 0 || count > MAX_SHARES || |bytes| != 42 + 2 * count then None
      else Some(SettleN(bytes[1..33], ReadU64(bytes[33..41]), BpsOf(bytes[42..], count)))
  }

  function DecodeSettleTokenNData(bytes: seq<byte>): Option<Instruction> {
    if |bytes| < 43 || bytes[0] != SETTLE_TOKEN_N_TAG then None
    else
      var count := bytes[42];
      if count == 0 || count > MAX_SHARES || |bytes| != 43 + 2 * count then None
      else Some(SettleTokenN(bytes[1..33], ReadU64(bytes[33..41]), bytes[41], BpsOf(bytes[43..], count)))
  }

  /** The client decodes a settlement exactly when the program unpacks that kind of settlement. */
  lemma DecodersAgree(bytes: seq<byte>)
    ensures DecodeSettleNData(bytes) ==
            if Unpack(bytes).Some? && Unpack(bytes).value.SettleN? then Unpack(bytes) else None
    ensures DecodeSettleTokenNData(bytes) ==
            if Unpack(bytes).Some? && Unpack(bytes).value.SettleTokenN? then Unpack(bytes) else None
  {
    if |bytes| >= 42 {
      var rest := bytes[1..];
      assert rest[..32] == bytes[1..33] && rest[32..40] == bytes[33..41] && rest[41..] == bytes[42..];
      assert |bytes| >= 43 ==> rest[42..] == bytes[43..] && rest[40..41] == [bytes[41]];
    }
  }
}

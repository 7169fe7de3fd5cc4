/** Numbers, keys and transfers as text, and comparison of lists of text after sorting. */
module Text {
  import opened Basics

  // ----- Positional notation -----

  /** The number a digit string denotes, first digit most significant. */
  function Value(digits: seq<nat>, base: nat): nat {
    if digits == [] then 0
    else Value(digits[..|digits| - 1], base) * base + digits[|digits| - 1]
  }

  /** The bases in use. */
  predicate IsBase(base: nat) {
    base == 10 || base == 58 || base == 256
  }

  lemma Division(n: nat, base: nat)
    requires IsBase(base)
    ensures n % base < base && n / base * base + n % base == n
    ensures n > 0 ==> n / base < n
  {}

  function Digits(n: nat, base: nat): (d: seq<nat>)
    requires IsBase(base)
    ensures forall i :: 0 <= i < |d| ==> d[i] < base
    decreases n
  {
    if n == 0 then []
    else
      Division(n, base);
      Digits(n / base, base) + [n % base]
  }

  lemma {:induction false} ValueOfDigits(n: nat, base: nat)
    requires IsBase(base)
    ensures Value(Digits(n, base), base) == n
    decreases n
  {
    if n > 0 {
      Division(n, base);
      ValueOfDigits(n / base, base);
      assert Digits(n, base)[..|Digits(n, base)| - 1] == Digits(n / base, base);
    }
  }

  lemma LastDigit(a: nat, x: nat, b: nat, y: nat, base: nat)
    requires IsBase(base) && x < base && y < base && a * base + x == b * base + y
    ensures a == b && x == y
  {}

  /** Digit strings of one length are determined by their value. */
  lemma {:induction false} ValueInjective(a: seq<nat>, b: seq<nat>, base: nat)
    requires IsBase(base) && |a| == |b| && Value(a, base) == Value(b, base)
    requires forall i :: 0 <= i < |a| ==> a[i] < base && b[i] < base
    ensures a == b
  {
    if a != [] {
      var n := |a| - 1;
      LastDigit(Value(a[..n], base), a[n], Value(b[..n], base), b[n], base);
      ValueInjective(a[..n], b[..n], base);
      assert a == a[..n] + [a[n]] && b == b[..n] + [b[n]];
    }
  }

  lemma {:induction false} LeadingZeros(z: nat, digits: seq<nat>, base: nat)
    ensures Value(seq(z, i => 0) + digits, base) == Value(digits, base)
  {
    var zeros := seq(z, i => 0);
    if digits != [] {
      var n := |digits| - 1;
      assert (zeros + digits)[..z + n] == zeros + digits[..n];
      LeadingZeros(z, digits[..n], base);
    } else if z > 0 {
      assert (zeros + digits)[..z - 1] == seq(z - 1, i => 0) + [];
      LeadingZeros(z - 1, [], base);
    }
  }

  // ----- Decimal numbers and base-58 keys -----

  const NUL: char := '\0'

  function Decimal(n: nat): string {
    if n == 0 then "0"
    else
      var d := Digits(n, 10);
      seq(|d|, i requires 0 <= i < |d| => '0' + d[i] as char)
  }

  lemma DecimalInjective(m: nat, n: nat)
    requires Decimal(m) == Decimal(n)
    ensures m == n
  {
    var dm, dn := if m == 0 then [0] else Digits(m, 10), if n == 0 then [0] else Digits(n, 10);
    assert |dm| == |Decimal(m)| == |Decimal(n)| == |dn|;
    forall i | 0 <= i < |dm|
      ensures dm[i] == dn[i]
    {
      assert Decimal(m)[i] == '0' + dm[i] as char && Decimal(n)[i] == '0' + dn[i] as char;
    }
    assert dm == dn;
    ValueOfDigits(m, 10);
    ValueOfDigits(n, 10);
  }

  /** The base-58 alphabet: digits and letters without 0, O, I and l. */
  function Symbol(d: nat): char
    requires d < 58
  {
    if d < 9 then '1' + d as char
    else if d < 17 then 'A' + (d - 9) as char
    else if d < 22 then 'J' + (d - 17) as char
    else if d < 33 then 'P' + (d - 22) as char
    else if d < 44 then 'a' + (d - 33) as char
    else 'm' + (d - 44) as char
  }

  function ZeroCount(bytes: seq<byte>): nat {
    if bytes == [] || bytes[0] != 0 then 0 else 1 + ZeroCount(bytes[1..])
  }

  function KeyDigits(key: Key): (d: seq<nat>)
    ensures forall i :: 0 <= i < |d| ==> d[i] < 58
  {
    seq(ZeroCount(key), i => 0) + Digits(Value(key, 256), 58)
  }

  /** A key as people write it. */
  function Base58(key: Key): string {
    var d := KeyDigits(key);
    seq(|d|, i requires 0 <= i < |d| => Symbol(d[i]))
  }

  lemma Base58Injective(a: Key, b: Key)
    requires Base58(a) == Base58(b)
    ensures a == b
  {
    var da, db := KeyDigits(a), KeyDigits(b);
    assert |da| == |Base58(a)| == |Base58(b)| == |db|;
    forall i | 0 <= i < |da|
      ensures da[i] == db[i]
    {
      assert Symbol(da[i]) == Base58(a)[i] == Base58(b)[i] == Symbol(db[i]);
    }
    assert da == db;
    KeyDigitsValue(a);
    KeyDigitsValue(b);
    ValueInjective(a, b, 256);
  }

  lemma Base58HasNoNul(key: Key)
    ensures NUL !in Base58(key)
  {}

  /** The digit a base-58 symbol stands for. */
  function DigitOf(c: char): Option<nat> {
    if '1' <= c <= '9' then Some((c - '1') as nat)
    else if 'A' <= c <= 'H' then Some((c - 'A') as nat + 9)
    else if 'J' <= c <= 'N' then Some((c - 'J') as nat + 17)
    else if 'P' <= c <= 'Z' then Some((c - 'P') as nat + 22)
    else if 'a' <= c <= 'k' then Some((c - 'a') as nat + 33)
    else if 'm' <= c <= 'z' then Some((c - 'm') as nat + 44)
    else None
  }

  /** The key a text writes, when it is the base-58 form of one. */
  function KeyOf(text: string): (k: Option<Key>)
    ensures k.Some? ==> Base58(k.value) == text
  {
    if exists i :: 0 <= i < |text| && DigitOf(text[i]).None? then None
    else
      var digits: seq<nat> := seq(|text|, i requires 0 <= i < |text| => DigitOf(text[i]).value);
      var bytes := Digits(Value(digits, 58), 256);
      if |bytes| > 32 then None
      else
        var key: Key := seq(32 - |bytes|, i => 0) + bytes;
        if Base58(key) == text then Some(key) else None
  }

  function Pow(base: nat, n: nat): nat {
    if n == 0 then 1 else base * Pow(base, n - 1)
  }

  lemma {:induction false} ValueBound(digits: seq<nat>)
    requires forall i :: 0 <= i < |digits| ==> digits[i] < 256
    ensures Value(digits, 256) < Pow(256, |digits|)
  {
    if digits != [] {
      ValueBound(digits[..|digits| - 1]);
    }
  }

  lemma {:induction false} DigitsLength(n: nat, width: nat)
    requires n < Pow(256, width)
    ensures |Digits(n, 256)| <= width
    decreases width
  {
    if n > 0 {
      assert n / 256 < Pow(256, width - 1);
      DigitsLength(n / 256, width - 1);
    }
  }

  lemma PaddedDigits(key: Key)
    ensures var bytes := Digits(Value(key, 256), 256);
            |bytes| <= 32 && seq(32 - |bytes|, i => 0) + bytes == key
  {
    var n := Value(key, 256);
    ValueBound(key);
    DigitsLength(n, 32);
    var bytes := Digits(n, 256);
    var back: Key := seq(32 - |bytes|, i => 0) + bytes;
    LeadingZeros(32 - |bytes|, bytes, 256);
    ValueOfDigits(n, 256);
    ValueInjective(back, key, 256);
  }

  lemma KeyDigitsValue(key: Key)
    ensures Value(KeyDigits(key), 58) == Value(key, 256)
  {
    LeadingZeros(ZeroCount(key), Digits(Value(key, 256), 58), 58);
    ValueOfDigits(Value(key, 256), 58);
  }

  /** Reading back what was written gives the key, so texts and keys are one to one. */
  lemma KeyOfBase58(key: Key)
    ensures KeyOf(Base58(key)) == Some(key)
  {
    var text, d := Base58(key), KeyDigits(key);
    forall i | 0 <= i < |text|
      ensures DigitOf(text[i]) == Some(d[i])
    {
      assert text[i] == Symbol(d[i]);
    }
    hide Value, Digits, KeyDigits;
    var digits: seq<nat> := seq(|text|, i requires 0 <= i < |text| => DigitOf(text[i]).value);
    assert digits == d;
    KeyDigitsValue(key);
    PaddedDigits(key);
  }

  // ----- NUL-separated fields -----

  function BeforeNul(s: string): string {
    if s == [] || s[0] == NUL then [] else [s[0]] + BeforeNul(s[1..])
  }

  lemma {:induction false} BeforeNulOfJoin(a: string, x: string)
    requires NUL !in a
    ensures BeforeNul(a + [NUL] + x) == a
  {
    if a != [] {
      assert (a + [NUL] + x)[1..] == a[1..] + [NUL] + x;
      BeforeNulOfJoin(a[1..], x);
    }
  }

  /** Text before the first NUL is determined by the whole. */
  lemma JoinInjective(a: string, x: string, b: string, y: string)
    requires NUL !in a && NUL !in b && a + [NUL] + x == b + [NUL] + y
    ensures a == b && x == y
  {
    BeforeNulOfJoin(a, x);
    BeforeNulOfJoin(b, y);
    assert x == (a + [NUL] + x)[|a| + 1..] && y == (b + [NUL] + y)[|b| + 1..];
  }

  function TransferKey(source: string, destination: string, amount: nat): string {
    source + [NUL] + (destination + [NUL] + Decimal(amount))
  }

  lemma TransferKeyInjective(s: Key, d: Key, m: nat, s': Key, d': Key, n: nat)
    requires TransferKey(Base58(s), Base58(d), m) == TransferKey(Base58(s'), Base58(d'), n)
    ensures s == s' && d == d' && m == n
  {
    Base58HasNoNul(s);
    Base58HasNoNul(s');
    Base58HasNoNul(d);
    Base58HasNoNul(d');
    JoinInjective(Base58(s), Base58(d) + [NUL] + Decimal(m), Base58(s'), Base58(d') + [NUL] + Decimal(n));
    JoinInjective(Base58(d), Decimal(m), Base58(d'), Decimal(n));
    Base58Injective(s, s');
    Base58Injective(d, d');
    DecimalInjective(m, n);
  }

  // ----- Sorting -----

  /** Code-unit order. */
  predicate Le(a: string, b: string) {
    a == [] || (b != [] && (a[0] < b[0] || (a[0] == b[0] && Le(a[1..], b[1..]))))
  }

  lemma {:induction false} LeTotal(a: string, b: string)
    ensures Le(a, b) || Le(b, a)
    ensures Le(a, b) && Le(b, a) ==> a == b
  {
    if a != [] && b != [] && a[0] == b[0] {
      LeTotal(a[1..], b[1..]);
      assert a == [a[0]] + a[1..] && b == [b[0]] + b[1..];
    }
  }

  lemma {:induction false} LeTransitive(a: string, b: string, c: string)
    requires Le(a, b) && Le(b, c)
    ensures Le(a, c)
  {
    if a != [] && a[0] == b[0] && b[0] == c[0] {
      LeTransitive(a[1..], b[1..], c[1..]);
    }
  }

  ghost predicate IsSorted(s: seq<string>) {
    forall i, j :: 0 <= i < j < |s| ==> Le(s[i], s[j])
  }

  function Insert(x: string, s: seq<string>): seq<string> {
    if s == [] then [x] else if Le(x, s[0]) then [x] + s else [s[0]] + Insert(x, s[1..])
  }

  function Sort(s: seq<string>): seq<string> {
    if s == [] then [] else Insert(s[0], Sort(s[1..]))
  }

  lemma {:induction false} InsertSorts(x: string, s: seq<string>)
    requires IsSorted(s)
    ensures IsSorted(Insert(x, s)) && multiset(Insert(x, s)) == multiset(s) + multiset{x}
  {
    hide Le;
    if s != [] {
      assert s == [s[0]] + s[1..];
      if Le(x, s[0]) {
        forall i | 0 <= i < |s|
          ensures Le(x, s[i])
        {
          if i > 0 {
            LeTransitive(x, s[0], s[i]);
          }
        }
      } else {
        LeTotal(x, s[0]);
        InsertSorts(x, s[1..]);
        var rest := Insert(x, s[1..]);
        forall j | 0 <= j < |rest|
          ensures Le(s[0], rest[j])
        {
          assert rest[j] in multiset(rest);
          assert rest[j] == x || rest[j] in s[1..];
        }
      }
    }
  }

  lemma {:induction false} SortSorts(s: seq<string>)
    ensures IsSorted(Sort(s)) && multiset(Sort(s)) == multiset(s)
  {
    if s != [] {
      SortSorts(s[1..]);
      InsertSorts(s[0], Sort(s[1..]));
      assert s == [s[0]] + s[1..];
    }
  }

  lemma {:induction false} SortedUnique(s: seq<string>, t: seq<string>)
    requires IsSorted(s) && IsSorted(t) && multiset(s) == multiset(t)
    ensures s == t
  {
    assert |s| == |multiset(s)| == |t|;
    if s != [] {
      FirstIsLeast(s, t);
      FirstIsLeast(t, s);
      LeTotal(s[0], t[0]);
      RestOf(s);
      RestOf(t);
      SortedUnique(s[1..], t[1..]);
    }
  }

  lemma RestOf(s: seq<string>)
    requires s != []
    ensures s == [s[0]] + s[1..] && multiset(s[1..]) == multiset(s) - multiset{s[0]}
  {}

  lemma FirstIsLeast(s: seq<string>, t: seq<string>)
    requires IsSorted(s) && s != [] && t != [] && multiset(s) == multiset(t)
    ensures Le(s[0], t[0])
  {
    assert t[0] in multiset(s);
    var j :| 0 <= j < |s| && s[j] == t[0];
    LeTotal(s[0], s[0]);
  }

  /** Sorted copies are equal exactly when the lists are permutations of each other. */
  lemma SortedEqualIffPermutation(s: seq<string>, t: seq<string>)
    ensures Sort(s) == Sort(t) <==> multiset(s) == multiset(t)
  {
    SortSorts(s);
    SortSorts(t);
    if multiset(s) == multiset(t) {
      SortedUnique(Sort(s), Sort(t));
    }
  }
}

/** The name of the lease for a namespace and a selector: a prefix of a digest, in lowercase
    base32 without padding (section 6 of RFC 4648). */
module LeaseNames {
  newtype byte = x: int | 0 <= x < 256

  // ----- base32

  function Pow2(w: nat): nat {
    if w == 0 then 1 else 2 * Pow2(w - 1)
  }

  /** The low w bits of n, most significant first. */
  function Bits(n: nat, w: nat): (bits: seq<bool>)
    ensures |bits| == w
  {
    if w == 0 then [] else Bits(n / 2, w - 1) + [n % 2 == 1]
  }

  function Number(bits: seq<bool>): nat {
    if bits == [] then 0 else 2 * Number(bits[..|bits| - 1]) + (if bits[|bits| - 1] then 1 else 0)
  }

  function BitsOf(bytes: seq<byte>): (bits: seq<bool>)
    ensures |bits| == 8 * |bytes|
  {
    if bytes == [] then [] else Bits(bytes[0] as nat, 8) + BitsOf(bytes[1..])
  }

  /** Table 3 of RFC 4648: A to Z, then 2 to 7. */
  function Char(v: nat): char
    requires v < 32
  {
    if v < 26 then ('A' as int + v) as char else ('2' as int + v - 26) as char
  }

  function Zeros(n: nat): seq<bool> {
    seq(n, _ => false)
  }

  /** Five bits per character, the last group filled up with zeros. */
  function EncodeBits(bits: seq<bool>): (s: string)
    ensures |s| == (|bits| + 4) / 5
    ensures forall c | c in s :: InAlphabet(c)
  {
    if bits == [] then ""
    else if |bits| < 5 then
      NumberBound(bits + Zeros(5 - |bits|));
      [Char(Number(bits + Zeros(5 - |bits|)))]
    else
      NumberBound(bits[..5]);
      [Char(Number(bits[..5]))] + EncodeBits(bits[5..])
  }

  predicate InAlphabet(c: char) {
    'A' <= c <= 'Z' || '2' <= c <= '7'
  }

  function Repeat(c: char, n: nat): string {
    seq(n, _ => c)
  }

  /** The standard encoding pads to a multiple of eight characters. */
  function EncodeToString(bytes: seq<byte>): string {
    var s := EncodeBits(BitsOf(bytes));
    s + Repeat('=', (8 - |s| % 8) % 8)
  }

  function TrimRight(s: string, c: char): string {
    if s != "" && s[|s| - 1] == c then TrimRight(s[..|s| - 1], c) else s
  }

  function ToLower(s: string): (t: string)
    ensures |t| == |s|
  {
    seq(|s|, i requires 0 <= i < |s| => if 'A' <= s[i] <= 'Z' then (s[i] as int + 32) as char else s[i])
  }

  function LeaseName(prefix: seq<byte>): string {
    "xpdb-" + ToLower(TrimRight(EncodeToString(prefix), '='))
  }

  // ----- numbers and bits

  lemma {:induction false} NumberBound(bits: seq<bool>)
    ensures Number(bits) < Pow2(|bits|)
    ensures |bits| == 5 ==> Number(bits) < 32
  {
    if bits != [] {
      NumberBound(bits[..|bits| - 1]);
    }
    assert Pow2(5) == 32 by {
      assert Pow2(3) == 8;
    }
  }

  lemma {:induction false} NumberInjective(a: seq<bool>, b: seq<bool>)
    requires |a| == |b| && Number(a) == Number(b)
    ensures a == b
  {
    if a != [] {
      var n := |a| - 1;
      assert a == a[..n] + [a[n]] && b == b[..n] + [b[n]];
      NumberInjective(a[..n], b[..n]);
    }
  }

  lemma {:induction false} NumberOfBits(n: nat, w: nat)
    requires n < Pow2(w)
    ensures Number(Bits(n, w)) == n
  {
    if w > 0 {
      NumberOfBits(n / 2, w - 1);
      assert Bits(n, w)[..w - 1] == Bits(n / 2, w - 1);
    }
  }

  lemma {:induction false} BitsOfInjective(a: seq<byte>, b: seq<byte>)
    requires |a| == |b| && BitsOf(a) == BitsOf(b)
    ensures a == b
  {
    if a != [] {
      assert Pow2(8) == 256 by {
        assert Pow2(4) == 16 && Pow2(6) == 64;
      }
      assert Bits(a[0] as nat, 8) == BitsOf(a)[..8] && Bits(b[0] as nat, 8) == BitsOf(b)[..8];
      NumberOfBits(a[0] as nat, 8);
      NumberOfBits(b[0] as nat, 8);
      assert BitsOf(a[1..]) == BitsOf(a)[8..] && BitsOf(b[1..]) == BitsOf(b)[8..];
      BitsOfInjective(a[1..], b[1..]);
      assert a == [a[0]] + a[1..] && b == [b[0]] + b[1..];
    }
  }

  lemma GroupInjective(a: seq<bool>, b: seq<bool>)
    requires |a| == |b| == 5
    ensures Number(a) < 32 && Number(b) < 32
    ensures Char(Number(a)) == Char(Number(b)) ==> a == b
  {
    NumberBound(a);
    NumberBound(b);
    if Char(Number(a)) == Char(Number(b)) {
      NumberInjective(a, b);
    }
  }

  lemma {:induction false} EncodeBitsInjective(a: seq<bool>, b: seq<bool>)
    requires |a| == |b| && EncodeBits(a) == EncodeBits(b)
    ensures a == b
  {
    if a == [] {
    } else if |a| < 5 {
      var a', b' := a + Zeros(5 - |a|), b + Zeros(5 - |b|);
      GroupInjective(a', b');
      assert EncodeBits(a)[0] == EncodeBits(b)[0];
      assert a == a'[..|a|] && b == b'[..|b|];
    } else {
      GroupInjective(a[..5], b[..5]);
      assert EncodeBits(a)[0] == EncodeBits(b)[0];
      assert EncodeBits(a)[1..] == EncodeBits(a[5..]) && EncodeBits(b)[1..] == EncodeBits(b[5..]);
      EncodeBitsInjective(a[5..], b[5..]);
      assert a == a[..5] + a[5..] && b == b[..5] + b[5..];
    }
  }

  // ----- trimming and lowering

  lemma {:induction false} TrimPadding(s: string, n: nat)
    requires forall c | c in s :: InAlphabet(c)
    ensures TrimRight(s + Repeat('=', n), '=') == s
  {
    var t := s + Repeat('=', n);
    if n == 0 {
      assert t == s;
      if s != "" {
        assert s[|s| - 1] in s;
      }
    } else {
      assert t[..|t| - 1] == s + Repeat('=', n - 1);
      TrimPadding(s, n - 1);
    }
  }

  lemma ToLowerInjective(s: string, t: string)
    requires (forall c | c in s :: InAlphabet(c)) && (forall c | c in t :: InAlphabet(c))
    requires ToLower(s) == ToLower(t)
    ensures s == t
  {
    assert |s| == |t| by {
      assert |ToLower(s)| == |s| && |ToLower(t)| == |t|;
    }
    forall i | 0 <= i < |s|
      ensures s[i] == t[i]
    {
      assert s[i] in s && t[i] in t;
      assert ToLower(s)[i] == ToLower(t)[i];
    }
  }

  // ----- main results

  predicate InName(c: char) {
    'a' <= c <= 'z' || '2' <= c <= '7' || c == '-'
  }

  lemma NameOfPrefix(prefix: seq<byte>)
    ensures LeaseName(prefix) == "xpdb-" + ToLower(EncodeBits(BitsOf(prefix)))
  {
    var s := EncodeBits(BitsOf(prefix));
    var n: nat := (8 - |s| % 8) % 8;
    assert EncodeToString(prefix) == s + Repeat('=', n);
    TrimPadding(s, n);
  }

  /** Every 24-byte prefix gives a valid object name of 44 characters. */
  lemma NamesAreValid(prefix: seq<byte>)
    requires |prefix| == 24
    ensures |LeaseName(prefix)| == 44
    ensures forall c | c in LeaseName(prefix) :: InName(c)
  {
    NameOfPrefix(prefix);
    var s := EncodeBits(BitsOf(prefix));
    forall c | c in ToLower(s)
      ensures InName(c)
    {
      var i :| 0 <= i < |s| && ToLower(s)[i] == c;
      assert s[i] in s;
    }
    assert forall c | c in "xpdb-" :: InName(c);
  }

  /** Nothing of the prefix is lost in its name. */
  lemma NamesAreLossless(a: seq<byte>, b: seq<byte>)
    requires |a| == |b|
    ensures LeaseName(a) == LeaseName(b) <==> a == b
  {
    if LeaseName(a) == LeaseName(b) {
      NameOfPrefix(a);
      NameOfPrefix(b);
      var s, t := EncodeBits(BitsOf(a)), EncodeBits(BitsOf(b));
      assert ToLower(s) == LeaseName(a)[5..] && ToLower(t) == LeaseName(b)[5..];
      ToLowerInjective(s, t);
      EncodeBitsInjective(BitsOf(a), BitsOf(b));
      BitsOfInjective(a, b);
    }
  }

  // ----- the name as a number

  function Pow(base: nat, n: nat): nat {
    if n == 0 then 1 else base * Pow(base, n - 1)
  }

  /** The number that these digits make, most significant first. */
  function BigEndian(digits: seq<nat>, base: nat): nat {
    if digits == [] then 0 else digits[0] * Pow(base, |digits| - 1) + BigEndian(digits[1..], base)
  }

  function Bytes(bytes: seq<byte>): seq<nat> {
    seq(|bytes|, i requires 0 <= i < |bytes| => bytes[i] as nat)
  }

  /** The value of a character: a to z, then 2 to 7. */
  function Digit(c: char): nat {
    if 'a' <= c <= 'z' then c as int - 'a' as int
    else if '2' <= c <= '7' then c as int - '2' as int + 26
    else 32
  }

  function Digits(s: string): seq<nat> {
    seq(|s|, i requires 0 <= i < |s| => Digit(s[i]))
  }

  lemma {:induction false} Pow2Adds(a: nat, b: nat)
    ensures Pow2(a + b) == Pow2(a) * Pow2(b)
  {
    if a > 0 {
      Pow2Adds(a - 1, b);
      assert Pow2(a + b) == 2 * Pow2(a - 1 + b);
      Regroup(Pow2(a - 1), Pow2(b));
    }
  }

  lemma Regroup(x: nat, y: nat)
    ensures 2 * (x * y) == (2 * x) * y
  {
  }

  lemma {:induction false} PowIsPow2(w: nat, n: nat)
    ensures Pow(Pow2(w), n) == Pow2(w * n)
  {
    if n > 0 {
      PowIsPow2(w, n - 1);
      Pow2Adds(w, w * (n - 1));
      assert w + w * (n - 1) == w * n;
    }
  }

  lemma {:induction false} NumberAdds(a: seq<bool>, b: seq<bool>)
    ensures Number(a + b) == Number(a) * Pow2(|b|) + Number(b)
  {
    if b == [] {
      assert a + b == a;
    } else {
      var n := |b| - 1;
      NumberAdds(a, b[..n]);
      assert (a + b)[..|a + b| - 1] == a + b[..n];
      var bit := if b[n] then 1 else 0;
      assert Number(b) == 2 * Number(b[..n]) + bit && Number(a + b) == 2 * Number(a + b[..n]) + bit;
      Doubles(Number(a), Pow2(n), Number(b[..n]));
    }
  }

  lemma Doubles(x: nat, p: nat, y: nat)
    ensures 2 * (x * p + y) == x * (2 * p) + 2 * y
  {
    assert 2 * (x * p) == x * (2 * p);
  }

  lemma Distributes(x: nat, p: nat, y: nat, f: nat)
    ensures x * (p * f) + y * f == (x * p + y) * f
  {
    assert x * (p * f) == x * p * f;
  }

  lemma {:induction false} ZerosAreZero(n: nat)
    ensures Number(Zeros(n)) == 0
  {
    if n > 0 {
      ZerosAreZero(n - 1);
      assert Zeros(n)[..n - 1] == Zeros(n - 1);
    }
  }

  lemma Powers()
    ensures Pow2(8) == 256 && Pow2(5) == 32
  {
    assert Pow2(3) == 8 && Pow2(6) == 64;
  }

  lemma {:induction false} BytesAreBits(bytes: seq<byte>)
    ensures Number(BitsOf(bytes)) == BigEndian(Bytes(bytes), 256)
  {
    if bytes != [] {
      var rest := bytes[1..];
      BytesAreBits(rest);
      FirstByte(bytes);
      assert Bytes(bytes)[1..] == Bytes(rest) && Bytes(bytes)[0] == bytes[0] as nat;
    }
  }

  lemma FirstByte(bytes: seq<byte>)
    requires bytes != []
    ensures Number(BitsOf(bytes)) == bytes[0] as nat * Pow(256, |bytes| - 1) + Number(BitsOf(bytes[1..]))
  {
    var n := |bytes| - 1;
    Powers();
    NumberOfBits(bytes[0] as nat, 8);
    PowIsPow2(8, n);
    NumberAdds(Bits(bytes[0] as nat, 8), BitsOf(bytes[1..]));
    assert |BitsOf(bytes[1..])| == 8 * n;
  }

  lemma LowerDigit(v: nat)
    requires v < 32
    ensures Digits(ToLower([Char(v)])) == [v]
  {
  }

  lemma LowerAdds(s: string, t: string)
    ensures Digits(ToLower(s + t)) == Digits(ToLower(s)) + Digits(ToLower(t))
  {
  }

  /** The bits that fill up the last group. */
  function Fill(n: nat): nat {
    (5 - n % 5) % 5
  }

  lemma {:induction false} DigitsAreBits(bits: seq<bool>)
    ensures BigEndian(Digits(ToLower(EncodeBits(bits))), 32) == Number(bits) * Pow2(Fill(|bits|))
    decreases |bits|
  {
    if bits == [] {
      assert Digits(ToLower("")) == [];
    } else if |bits| < 5 {
      LastGroup(bits);
    } else {
      FirstGroup(bits);
      DigitsAreBits(bits[5..]);
      MoreGroups(bits);
    }
  }

  lemma LastDigits(bits: seq<bool>)
    requires 0 < |bits| < 5
    ensures Digits(ToLower(EncodeBits(bits))) == [Number(bits + Zeros(5 - |bits|))]
  {
    NumberBound(bits + Zeros(5 - |bits|));
    LowerDigit(Number(bits + Zeros(5 - |bits|)));
  }

  lemma LastGroup(bits: seq<bool>)
    requires 0 < |bits| < 5
    ensures BigEndian(Digits(ToLower(EncodeBits(bits))), 32) == Number(bits) * Pow2(Fill(|bits|))
  {
    var fill := Fill(|bits|);
    FillLast(|bits|);
    LastDigits(bits);
    OneDigit(Number(bits + Zeros(fill)));
    FilledUp(bits, Zeros(fill));
  }

  lemma FilledUp(bits: seq<bool>, zeros: seq<bool>)
    requires zeros == Zeros(|zeros|)
    ensures Number(bits + zeros) == Number(bits) * Pow2(|zeros|)
  {
    NumberAdds(bits, zeros);
    ZerosAreZero(|zeros|);
  }

  lemma FillLast(n: nat)
    requires 0 < n < 5
    ensures Fill(n) == 5 - n
  {
  }

  lemma FillMore(n: nat)
    requires 5 <= n
    ensures Fill(n - 5) == Fill(n) && 5 * ((n - 5 + 4) / 5) == n - 5 + Fill(n)
  {
  }

  lemma OneDigit(v: nat)
    ensures BigEndian([v], 32) == v
  {
    assert [v][1..] == [];
    assert Pow(32, 0) == 1;
  }

  lemma FirstGroup(bits: seq<bool>)
    requires 5 <= |bits|
    ensures
      var rest := Digits(ToLower(EncodeBits(bits[5..])));
      BigEndian(Digits(ToLower(EncodeBits(bits))), 32) ==
      Number(bits[..5]) * Pow(32, |rest|) + BigEndian(rest, 32)
  {
    NumberBound(bits[..5]);
    LowerDigit(Number(bits[..5]));
    var first, rest := [Char(Number(bits[..5]))], EncodeBits(bits[5..]);
    LowerAdds(first, rest);
    var all := Digits(ToLower(first + rest));
    assert all[0] == Number(bits[..5]) && all[1..] == Digits(ToLower(rest));
  }

  lemma MoreGroups(bits: seq<bool>)
    requires 5 <= |bits|
    ensures
      var rest, m := bits[5..], |EncodeBits(bits[5..])|;
      Number(bits[..5]) * Pow(32, m) + Number(rest) * Pow2(Fill(|rest|)) == Number(bits) * Pow2(Fill(|bits|))
  {
    var head, rest, m := bits[..5], bits[5..], |EncodeBits(bits[5..])|;
    FillMore(|bits|);
    Shifted(head, rest, m, Fill(|bits|));
    assert bits == head + rest;
  }

  lemma Shifted(head: seq<bool>, rest: seq<bool>, m: nat, fill: nat)
    requires 5 * m == |rest| + fill
    ensures Number(head) * Pow(32, m) + Number(rest) * Pow2(fill) == Number(head + rest) * Pow2(fill)
  {
    ThirtyTwo(m, |rest|, fill);
    NumberAdds(head, rest);
    var x, p, y, f, q := Number(head), Pow2(|rest|), Number(rest), Pow2(fill), Pow(32, m);
    var all := Number(head + rest);
    Combine(x, p, y, f, q, all);
  }

  lemma ThirtyTwo(m: nat, n: nat, fill: nat)
    requires 5 * m == n + fill
    ensures Pow(32, m) == Pow2(n) * Pow2(fill)
  {
    Powers();
    PowIsPow2(5, m);
    Pow2Adds(n, fill);
  }

  lemma Combine(x: nat, p: nat, y: nat, f: nat, q: nat, all: nat)
    requires q == p * f && all == x * p + y
    ensures x * q + y * f == all * f
  {
    Distributes(x, p, y, f);
  }

  lemma NameTail(prefix: seq<byte>)
    requires |prefix| == 24
    ensures LeaseName(prefix)[..5] == "xpdb-" && |LeaseName(prefix)| == 44
    ensures LeaseName(prefix)[5..] == ToLower(EncodeBits(BitsOf(prefix)))
  {
    NameOfPrefix(prefix);
  }

  lemma BitsAsNumber(bits: seq<bool>)
    requires |bits| == 192
    ensures BigEndian(Digits(ToLower(EncodeBits(bits))), 32) == 8 * Number(bits)
  {
    DigitsAreBits(bits);
    FillOfName();
  }

  /** What the name says: after the prefix, the digest's first bytes as one number, most
      significant byte first, shifted by three bits and written with the digits of base 32. */
  lemma NameIsNumber(prefix: seq<byte>)
    requires |prefix| == 24
    ensures LeaseName(prefix)[..5] == "xpdb-" && |LeaseName(prefix)| == 44
    ensures BigEndian(Digits(LeaseName(prefix)[5..]), 32) == 8 * BigEndian(Bytes(prefix), 256)
  {
    NameTail(prefix);
    BitsAsNumber(BitsOf(prefix));
    BytesAreBits(prefix);
  }

  lemma FillOfName()
    ensures Fill(192) == 3 && Pow2(3) == 8
  {
    assert Pow2(1) == 2 && Pow2(2) == 4;
  }

  /** Namespace and printed selector are hashed without a separator; since a printed selector
      begins with an ampersand and a namespace has none, no two pairs run together. */
  lemma {:induction false} HashInputIsUnambiguous(ns: string, ns': string, shown: string, shown': string)
    requires '&' !in ns && '&' !in ns'
    requires shown != "" && shown[0] == '&' && shown' != "" && shown'[0] == '&'
    requires ns + shown == ns' + shown'
    ensures ns == ns' && shown == shown'
    decreases |ns|
  {
    var all, all' := ns + shown, ns' + shown';
    if ns == "" || ns' == "" {
      assert all[0] == all'[0];
      assert ns == "" && ns' == "";
      assert all == shown && all' == shown';
    } else {
      assert all[0] == ns[0] && all'[0] == ns'[0];
      assert all[1..] == ns[1..] + shown && all'[1..] == ns'[1..] + shown';
      HashInputIsUnambiguous(ns[1..], ns'[1..], shown, shown');
      assert ns == [ns[0]] + ns[1..] && ns' == [ns'[0]] + ns'[1..];
    }
  }
}

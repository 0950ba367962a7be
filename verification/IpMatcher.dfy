/** IPv4 allow-list matching (src/security/ip-matcher.ts): addresses are folded into a 32-bit
    integer with JavaScript shifts and compared under a prefix mask. */
module IpMatcher {

  datatype Option<+T> = None | Some(value: T)

  const TWO32: int := 0x1_0000_0000
  const TWO31: int := 0x8000_0000

  function Pow2(n: nat): (p: nat)
    ensures p > 0
  {
    if n == 0 then 1 else 2 * Pow2(n - 1)
  }

  // JavaScript's 32-bit operators, on integral numbers

  /** ToUint32, the conversion done by `>>> 0`. */
  function ToUint32(x: int): (u: nat)
  {
    x % 0x1_0000_0000
  }

  /** ToInt32, the conversion done by `<<`, `&` and `|`. */
  function ToInt32(x: int): int
  {
    var u := ToUint32(x);
    if u >= 0x8000_0000 then u - 0x1_0000_0000 else u
  }

  /** `x << count`: only the low five bits of the count are used. */
  function ShiftLeft(x: int, count: nat): int
  {
    ToInt32(ToInt32(x) * Pow2(count % 32))
  }

  /** Bitwise and of two non-negative numbers, bit by bit. */
  function BitAnd(x: nat, y: nat): nat
  {
    if x == 0 || y == 0 then 0 else 2 * BitAnd(x / 2, y / 2) + if x % 2 == 1 && y % 2 == 1 then 1 else 0
  }

  /** `x & y`. */
  function And32(x: int, y: int): int
  {
    ToInt32(BitAnd(ToUint32(x), ToUint32(y)))
  }

  // Parsing

  predicate IsDigit(c: char)
  {
    '0' <= c <= '9'
  }

  predicate IsSpace(c: char)
  {
    || c == ' ' || '\t' <= c <= '\r' || c == '\U{A0}' || c == '\U{1680}' || '\U{2000}' <= c <= '\U{200A}'
    || c == '\U{2028}' || c == '\U{2029}' || c == '\U{202F}' || c == '\U{205F}' || c == '\U{3000}' || c == '\U{FEFF}'
  }

  function TrimStart(s: string): string
  {
    if s != "" && IsSpace(s[0]) then TrimStart(s[1..]) else s
  }

  function Trim(s: string): string
    decreases |s|
  {
    if s != "" && IsSpace(s[0]) then Trim(s[1..])
    else if s != "" && IsSpace(s[|s| - 1]) then Trim(s[..|s| - 1])
    else s
  }

  /** The longest run of digits at the front of `s`, as a number. */
  function DigitPrefix(s: string, acc: nat): nat
  {
    if s != "" && IsDigit(s[0]) then DigitPrefix(s[1..], acc * 10 + (s[0] - '0') as nat) else acc
  }

  /** `Number.parseInt(s, 10)`; None is NaN. Trailing garbage is ignored. */
  function ParseInt(s: string): Option<int>
  {
    var t := TrimStart(s);
    var negative := t != "" && t[0] == '-';
    var digits := if t != "" && (t[0] == '+' || t[0] == '-') then t[1..] else t;
    if digits == "" || !IsDigit(digits[0]) then None
    else
      var magnitude: int := DigitPrefix(digits, 0);
      Some(if negative then -magnitude else magnitude)
  }

  /** `s.split(sep)` for a one-character separator. */
  function Split(s: string, sep: char): (parts: seq<string>)
    ensures |parts| > 0
  {
    if s == "" then [""]
    else
      var rest := Split(s[1..], sep);
      if s[0] == sep then [""] + rest else [[s[0]] + rest[0]] + rest[1..]
  }

  function NormalizeIp(ip: string): string
  {
    if ip == "" then ""
    else
      var cleaned := Trim(ip);
      if "::ffff:" <= cleaned then cleaned[7..] else cleaned
  }

  // Addresses

  /** The four octets of a dotted address, if each one parses into 0..255. */
  function Octets(ip: string): Option<seq<nat>>
  {
    var parts := Split(ip, '.');
    if |parts| == 4 && forall i :: 0 <= i < 4 ==> IsOctet(ParseInt(parts[i]))
    then Some([ParseInt(parts[0]).value, ParseInt(parts[1]).value, ParseInt(parts[2]).value, ParseInt(parts[3]).value])
    else None
  }

  predicate IsOctet(n: Option<int>)
  {
    n.Some? && 0 <= n.value <= 255
  }

  /** The base-256 value of a list of octets, most significant first. */
  function Base256(octets: seq<nat>): nat
  {
    if octets == [] then 0 else Base256(octets[..|octets| - 1]) * 256 + octets[|octets| - 1]
  }

  /** The first parts denote these octets. */
  ghost predicate ParsedTo(parts: seq<string>, octets: seq<nat>)
  {
    && |octets| <= |parts|
    && forall k :: 0 <= k < |octets| ==> octets[k] <= 255 && ParseInt(parts[k]) == Some(octets[k])
  }

  /** The shift-and-add loop, with its signed intermediate results, computes the base-256 value. */
  method Ipv4ToInt(ip: string) returns (value: Option<nat>)
    ensures value == match Octets(ip) case None => None case Some(octets) => Some(Base256(octets))
    ensures value.Some? ==> value.value < TWO32
  {
    var parts := Split(ip, '.');
    if |parts| != 4 {
      return None;
    }
    var res := 0;
    ghost var octets: seq<nat> := [];
    for i := 0 to 4
      invariant |octets| == i && ParsedTo(parts, octets)
      invariant ToUint32(res) == Base256(octets)
    {
      var octet := ParseInt(parts[i]);
      if octet.None? || octet.value < 0 || octet.value > 255 {
        NoOctet(ip, i);
        return None;
      }
      ShiftInOctet(res, parts, octets, octet.value);
      octets := octets + [octet.value];
      res := ShiftLeft(res, 8) + octet.value;
    }
    OctetsFromParts(ip, octets);
    value := Some(ToUint32(res));
  }

  /** One round of the loop: the signed overflow of `<<` is undone modulo 2^32. */
  lemma ShiftInOctet(res: int, parts: seq<string>, octets: seq<nat>, octet: nat)
    requires |octets| < 4 == |parts| && ParsedTo(parts, octets)
    requires ParseInt(parts[|octets|]) == Some(octet) && octet <= 255
    requires ToUint32(res) == Base256(octets)
    ensures ToUint32(ShiftLeft(res, 8) + octet) == Base256(octets + [octet])
    ensures ParsedTo(parts, octets + [octet])
  {
    Base256Bound(octets);
    assert (octets + [octet])[..|octets|] == octets;
    ShiftByteUnsigned(res, octet, Base256(octets), |octets|);
  }

  lemma {:induction false} Base256Bound(octets: seq<nat>)
    requires forall k :: 0 <= k < |octets| ==> octets[k] <= 255
    ensures Base256(octets) < Pow2(8 * |octets|)
  {
    if octets != [] {
      Base256Bound(octets[..|octets| - 1]);
      Pow2Sum(8 * (|octets| - 1), 8);
      Pow2Values();
    }
  }

  lemma NoOctet(ip: string, i: nat)
    requires i < 4 == |Split(ip, '.')| && !IsOctet(ParseInt(Split(ip, '.')[i]))
    ensures Octets(ip).None?
  {
  }

  lemma OctetsFromParts(ip: string, octets: seq<nat>)
    requires |Split(ip, '.')| == 4 == |octets| && ParsedTo(Split(ip, '.'), octets)
    ensures Octets(ip) == Some(octets)
  {
    var parts := Split(ip, '.');
    assert octets == [ParseInt(parts[0]).value, ParseInt(parts[1]).value, ParseInt(parts[2]).value, ParseInt(parts[3]).value];
  }

  lemma Pow2Values()
    ensures Pow2(5) == 32 && Pow2(8) == 256 && Pow2(16) == 65536 && Pow2(24) == 0x100_0000
    ensures Pow2(31) == TWO31 && Pow2(32) == TWO32
  {
    assert Pow2(4) == 16;
    Pow2Sum(4, 4);
    Pow2Sum(8, 8);
    Pow2Sum(16, 8);
    Pow2Sum(24, 8);
  }

  lemma {:induction false} Pow2Sum(a: nat, b: nat)
    ensures Pow2(a + b) == Pow2(a) * Pow2(b)
  {
    if a > 0 {
      Pow2Sum(a - 1, b);
    }
  }

  lemma ShiftByteUnsigned(res: int, octet: int, value: nat, round: nat)
    requires round < 4 && 0 <= octet <= 255
    requires ToUint32(res) == value < Pow2(8 * round)
    ensures ToUint32(ShiftLeft(res, 8) + octet) == value * 256 + octet < Pow2(8 * (round + 1))
  {
    Pow2Values();
    assert value * 256 + octet < Pow2(8 * (round + 1)) by {
      Pow2Sum(8 * round, 8);
    }
    assert Pow2(8 * (round + 1)) <= TWO32;
    assert ToInt32(res) == value || ToInt32(res) == value - TWO32;
    assert ShiftLeft(res, 8) == ToInt32(ToInt32(res) * 256);
    assert ToUint32(ToInt32(res) * 256) == value * 256;
  }

  // Prefix masks

  /** The mask built for a prefix: `((0xffffffff << (32 - prefix)) & 0xffffffff) >>> 0`. */
  function Mask(prefix: nat): nat
    requires prefix <= 32
  {
    ToUint32(And32(ShiftLeft(0xffff_ffff, 32 - prefix), 0xffff_ffff))
  }

  lemma {:induction false} BitAndAllOnes(x: nat, k: nat)
    requires x < Pow2(k)
    ensures BitAnd(x, Pow2(k) - 1) == x
    decreases k
  {
    if x != 0 {
      assert (Pow2(k) - 1) / 2 == Pow2(k - 1) - 1;
      BitAndAllOnes(x / 2, k - 1);
    }
  }

  /** And-ing with ones above bit `k` clears the low `k` bits. */
  lemma {:induction false} BitAndHighOnes(x: nat, k: nat, width: nat)
    requires k <= width && x < Pow2(width)
    ensures Pow2(k) <= Pow2(width)
    ensures BitAnd(x, Pow2(width) - Pow2(k)) == x - x % Pow2(k)
    decreases k
  {
    if k < width {
      Pow2Grows(k, width);
    }
    if k == 0 {
      BitAndAllOnes(x, width);
    } else {
      BitAndHighOnes(x / 2, k - 1, width - 1);
      HighOnesDouble(x, k, width);
    }
  }

  lemma HighOnesDouble(x: nat, k: nat, width: nat)
    requires 0 < k <= width && Pow2(k - 1) <= Pow2(width - 1)
    requires BitAnd(x / 2, Pow2(width - 1) - Pow2(k - 1)) == x / 2 - x / 2 % Pow2(k - 1)
    ensures Pow2(k) <= Pow2(width)
    ensures BitAnd(x, Pow2(width) - Pow2(k)) == x - x % Pow2(k)
  {
    BitAndEven(x, Pow2(width - 1) - Pow2(k - 1));
    HalveMod(x, k);
  }

  lemma BitAndEven(x: nat, half: nat)
    ensures BitAnd(x, 2 * half) == 2 * BitAnd(x / 2, half)
  {
    assert (2 * half) / 2 == half && (2 * half) % 2 == 0;
  }

  lemma {:induction false} Pow2Grows(a: nat, b: nat)
    requires a < b
    ensures Pow2(a) < Pow2(b)
  {
    if a + 1 < b {
      Pow2Grows(a, b - 1);
    }
  }

  lemma HalveMod(x: nat, k: nat)
    requires k > 0
    ensures x - x % Pow2(k) == 2 * (x / 2 - (x / 2) % Pow2(k - 1))
  {
    var m := Pow2(k - 1);
    var h := x / 2;
    assert x == 2 * h + x % 2;
    assert h == m * (h / m) + h % m;
    assert x == (2 * m) * (h / m) + (2 * (h % m) + x % 2);
    assert 0 <= 2 * (h % m) + x % 2 < 2 * m;
    DivModUnique(x, 2 * m, h / m, 2 * (h % m) + x % 2);
  }

  lemma ProductGrows(d: int, k: int)
    requires d > 0 && k >= 1
    ensures d * k >= d
  {
    assert d * k == d * (k - 1) + d;
  }

  lemma SmallMultipleIsZero(d: int, k: int)
    requires -d < d * k < d
    ensures k == 0
  {
    if k >= 1 {
      ProductGrows(d, k);
    } else if k <= -1 {
      ProductGrows(d, -k);
    }
  }

  lemma DivModUnique(x: int, d: int, q: int, r: int)
    requires d > 0 && 0 <= r < d && x == d * q + r
    ensures x / d == q && x % d == r
  {
    var q', r' := x / d, x % d;
    assert d * (q - q') == d * q - d * q' == r' - r;
    SmallMultipleIsZero(d, q - q');
  }

  lemma MaskHasHighOnes(prefix: nat)
    requires 1 <= prefix <= 32
    ensures Mask(prefix) == TWO32 - Pow2(32 - prefix)
  {
    var count := 32 - prefix;
    ShiftOnes(count);
    var p: int := Pow2(count);
    NegativeInt32(p);
    And32AllOnes(-p);
    assert Mask(prefix) == ToUint32(And32(-p, 0xffff_ffff));
  }

  lemma ShiftOnes(count: nat)
    requires count < 32
    ensures 1 <= Pow2(count) <= TWO31
    ensures ShiftLeft(0xffff_ffff, count) == -(Pow2(count) as int)
  {
    Pow2AtMost31(count);
    NegativeInt32(Pow2(count));
    AllOnesIsMinusOne(Pow2(count));
    assert count % 32 == count;
  }

  lemma AllOnesIsMinusOne(p: int)
    ensures ToInt32(0xffff_ffff) * p == -1 * p
  {
    assert ToInt32(0xffff_ffff) == -1;
  }

  lemma Pow2AtMost31(count: nat)
    requires count < 32
    ensures Pow2(count) <= TWO31
  {
    Pow2Values();
    if count < 31 {
      Pow2Grows(count, 31);
    }
  }

  lemma And32AllOnes(x: int)
    ensures And32(x, 0xffff_ffff) == ToInt32(x)
  {
    var u := ToUint32(x);
    assert Pow2(32) == TWO32 by { Pow2Values(); }
    BitAndAllOnes(u, 32);
    assert ToUint32(0xffff_ffff) == TWO32 - 1;
  }

  lemma NegativeInt32(p: int)
    requires 1 <= p <= TWO31
    ensures ToInt32(-1 * p) == ToInt32(-p) == -p && ToUint32(-p) == TWO32 - p
  {
  }

  /** A shift by 32 is a shift by 0, so the mask of a zero prefix would keep every bit. */
  lemma ZeroPrefixMaskKeepsEverything()
    ensures Mask(0) == 0xffff_ffff == Mask(32)
  {
    Pow2Values();
    assert ShiftLeft(0xffff_ffff, 32) == -1;
    BitAndAllOnes(0xffff_ffff, 32);
    MaskHasHighOnes(32);
  }

  /** The comparison of section 3.1 of RFC 4632: equal network numbers under the prefix. */
  predicate SameNetwork(a: nat, b: nat, prefix: nat)
    requires prefix <= 32
  {
    a / Pow2(32 - prefix) == b / Pow2(32 - prefix)
  }

  lemma MaskedEqualityIsSameNetwork(a: nat, b: nat, prefix: nat)
    requires 1 <= prefix <= 32 && a < TWO32 && b < TWO32
    ensures And32(a, Mask(prefix)) == And32(b, Mask(prefix)) <==> SameNetwork(a, b, prefix)
  {
    MaskClearsLowBits(a, prefix);
    MaskClearsLowBits(b, prefix);
    ClearedEqual(a, b, Pow2(32 - prefix));
  }

  lemma ClearedEqual(a: nat, b: nat, p: nat)
    requires p > 0 && a < TWO32 && b < TWO32
    ensures ToInt32(a - a % p) == ToInt32(b - b % p) <==> a / p == b / p
  {
    var x, y := a - a % p, b - b % p;
    ClearedLowBits(a, p);
    ClearedLowBits(b, p);
    Int32Injective(x, y);
    EqualMultiples(p, a / p, b / p);
  }

  lemma EqualMultiples(d: int, q: int, q': int)
    requires d > 0
    ensures d * q == d * q' <==> q == q'
  {
    if d * q == d * q' {
      assert d * (q - q') == d * q - d * q' == 0;
      SmallMultipleIsZero(d, q - q');
    }
  }

  lemma MaskClearsLowBits(a: nat, prefix: nat)
    requires 1 <= prefix <= 32 && a < TWO32
    ensures And32(a, Mask(prefix)) == ToInt32(a - a % Pow2(32 - prefix))
  {
    MaskKeepsHighBits(a, prefix);
    And32Unsigned(a, Mask(prefix));
  }

  lemma MaskKeepsHighBits(a: nat, prefix: nat)
    requires 1 <= prefix <= 32 && a < TWO32
    ensures Mask(prefix) < TWO32
    ensures BitAnd(a, Mask(prefix)) == a - a % Pow2(32 - prefix)
  {
    MaskHasHighOnes(prefix);
    Pow2Values();
    BitAndHighOnes(a, 32 - prefix, 32);
  }

  lemma ClearedLowBits(a: nat, p: nat)
    requires p > 0
    ensures a - a % p == p * (a / p) <= a
  {
  }

  lemma And32Unsigned(a: nat, mask: nat)
    requires a < TWO32 && mask < TWO32
    ensures And32(a, mask) == ToInt32(BitAnd(a, mask))
  {
    assert ToUint32(a) == a;
    assert ToUint32(mask) == mask;
  }

  lemma Int32Injective(x: int, y: int)
    requires 0 <= x < TWO32 && 0 <= y < TWO32
    ensures ToInt32(x) == ToInt32(y) <==> x == y
  {
    assert ToUint32(x) == x && ToUint32(y) == y;
  }

  /** Zero-prefix rules accept every address; the others compare network numbers. */
  lemma {:induction false} ShorterPrefixMatchesToo(a: nat, b: nat, prefix: nat, shorter: nat)
    requires shorter <= prefix <= 32 && SameNetwork(a, b, prefix)
    ensures SameNetwork(a, b, shorter)
    decreases prefix - shorter
  {
    if shorter < prefix {
      var p := Pow2(32 - prefix);
      assert Pow2(32 - (prefix - 1)) == p * 2;
      DivideTwice(a, p);
      DivideTwice(b, p);
      ShorterPrefixMatchesToo(a, b, prefix - 1, shorter);
    }
  }

  lemma DivideTwice(x: nat, p: nat)
    requires p > 0
    ensures x / (p * 2) == x / p / 2
  {
    var q, r := x / p, x % p;
    assert x == p * q + r;
    assert q == 2 * (q / 2) + q % 2;
    var low := p * (q % 2) + r;
    assert p * (q % 2) <= p;
    assert x == (p * 2) * (q / 2) + low;
    DivModUnique(x, p * 2, q / 2, low);
  }

  lemma ZeroPrefixIsOneNetwork(a: nat, b: nat)
    requires a < TWO32 && b < TWO32
    ensures SameNetwork(a, b, 0)
  {
    assert Pow2(32) == TWO32 by { Pow2Values(); }
  }

  /** The meaning of a rule `subnet/prefix`, by the network-number comparison. */
  ghost predicate CidrAccepts(ip: string, cidr: string)
  {
    var parts := Split(cidr, '/');
    if |parts| == 1 || parts[1] == "" then NormalizeIp(ip) == NormalizeIp(parts[0])
    else
      var prefix := ParseInt(parts[1]);
      var client, subnet := Octets(NormalizeIp(ip)), Octets(NormalizeIp(parts[0]));
      && prefix.Some? && 0 <= prefix.value <= 32
      && client.Some? && subnet.Some?
      && SameNetwork(Base256(client.value), Base256(subnet.value), prefix.value)
  }

  method MatchCidr(ip: string, cidr: string) returns (matches: bool)
    ensures matches <==> CidrAccepts(ip, cidr)
  {
    var normalizedClient := NormalizeIp(ip);
    var parts := Split(cidr, '/');
    if |parts| == 1 || parts[1] == "" {
      return normalizedClient == NormalizeIp(parts[0]);
    }
    var prefix := ParseInt(parts[1]);
    if prefix.None? || prefix.value < 0 || prefix.value > 32 {
      return false;
    }
    var clientInt := Ipv4ToInt(normalizedClient);
    var subnetInt := Ipv4ToInt(NormalizeIp(parts[0]));
    if clientInt.None? || subnetInt.None? {
      return false;
    }
    if prefix.value == 0 {
      ZeroPrefixIsOneNetwork(clientInt.value, subnetInt.value);
      return true;
    }
    MaskedEqualityIsSameNetwork(clientInt.value, subnetInt.value, prefix.value);
    var mask := Mask(prefix.value);
    matches := And32(clientInt.value, mask) == And32(subnetInt.value, mask);
  }

  lemma {:induction false} SplitOnce(s: string, sep: char, rest: string)
    requires sep !in s
    ensures Split(s + [sep] + rest, sep) == [s] + Split(rest, sep)
  {
    var whole := s + [sep] + rest;
    if s == "" {
      assert whole[1..] == rest;
    } else {
      assert whole[1..] == s[1..] + [sep] + rest;
      SplitOnce(s[1..], sep, rest);
      assert s == [s[0]] + s[1..];
    }
  }

  lemma {:induction false} SplitNever(s: string, sep: char)
    requires sep !in s
    ensures Split(s, sep) == [s]
  {
    if s != "" {
      SplitNever(s[1..], sep);
      assert s == [s[0]] + s[1..];
    }
  }

  lemma RuleParts(subnet: string, prefix: string)
    requires '/' !in subnet && '/' !in prefix
    ensures Split(subnet + "/" + prefix, '/') == [subnet, prefix]
  {
    SplitOnce(subnet, '/', prefix);
    SplitNever(prefix, '/');
    assert subnet + "/" + prefix == subnet + ['/'] + prefix;
  }

  /** Widening a rule keeps what it accepts: an address that matches `subnet/prefix` matches the same subnet text with any
      prefix text that denotes a number between 0 and that prefix. */
  lemma WiderRuleAcceptsToo(ip: string, subnet: string, prefix: string, shorter: string)
    requires '/' !in subnet && '/' !in prefix && '/' !in shorter && prefix != ""
    requires ParseInt(prefix).Some? && ParseInt(shorter).Some? && 0 <= ParseInt(shorter).value <= ParseInt(prefix).value
    requires CidrAccepts(ip, subnet + "/" + prefix)
    ensures CidrAccepts(ip, subnet + "/" + shorter)
  {
    RuleParts(subnet, prefix);
    RuleParts(subnet, shorter);
    var client, network := Octets(NormalizeIp(ip)), Octets(NormalizeIp(subnet));
    ShorterPrefixMatchesToo(Base256(client.value), Base256(network.value), ParseInt(prefix).value, ParseInt(shorter).value);
  }
}

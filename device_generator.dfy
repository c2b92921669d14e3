/** The random device identity generator: every method reseeds a fresh
    pseudo-random generator from the account number and formats its draws
    into one identity field. */
module DeviceGenerator {
  import opened Strings

  /** A seeded generator as the values its calls hand out. `choice(seq)` and
      `randint(a, b)` both reduce to `_randbelow(n)` for the size `n` of the
      range, which reads `n.bit_length()` bits per try and rejects values of
      `n` or more. What a call returns therefore depends on the seed, on the
      range it asks for and on the ranges of every earlier call since
      seeding, which decide how much of the underlying generator was used.
      A stream maps the ranges asked for so far, the current call's last, to
      the value handed out; two calls with different range histories are
      unrelated. */
  type Stream = seq<nat> -> nat

  /** Seeding: `Random(seed)` as the stream of values it hands out. */
  type Prng = int -> Stream

  /** `_randbelow(n)` after earlier calls with ranges `calls`. */
  function Below(s: Stream, calls: seq<nat>, n: nat): (r: nat)
    requires n > 0
    ensures r < n
  {
    s(calls + [n]) % n
  }

  /** `n` repeated `count` times: the ranges of `count` draws from one set. */
  function Repeat(n: nat, count: nat): (r: seq<nat>)
    ensures |r| == count && forall i :: 0 <= i < count ==> r[i] == n
  {
    seq(count, _ => n)
  }

  /** `random.choice(charset)` after earlier calls with ranges `calls`. */
  function Choice(s: Stream, calls: seq<nat>, charset: string): (c: char)
    requires |charset| > 0
    ensures c in charset
  {
    charset[Below(s, calls, |charset|)]
  }

  /** `random.randint(lo, hi)` after earlier calls with ranges `calls`: both
      ends included. */
  function RandInt(s: Stream, calls: seq<nat>, lo: int, hi: int): (r: int)
    requires lo <= hi
    ensures lo <= r <= hi
  {
    lo + Below(s, calls, hi - lo + 1)
  }

  /** `rand_str`: `length` characters of `charset`, the `i`-th one drawn
      after the earlier calls `calls` and `i` draws from `charset`. */
  function RandStr(s: Stream, calls: seq<nat>, charset: string, length: nat): (r: string)
    requires |charset| > 0
    ensures |r| == length
    ensures forall i :: 0 <= i < length ==> r[i] == Choice(s, calls + Repeat(|charset|, i), charset)
  {
    seq(length, i requires 0 <= i < length => Choice(s, calls + Repeat(|charset|, i), charset))
  }

  /** A build row of the bundled build list. */
  datatype AndroidBuild = AndroidBuild(androidId: string, version: string)

  /** A device row of the bundled device list. */
  datatype AndroidDevice = AndroidDevice(branding: string, name: string, device: string, model: string)

  /** The device list keeps only rows whose four fields are all non-empty. */
  predicate CompleteDevice(d: AndroidDevice) {
    d.branding != "" && d.name != "" && d.device != "" && d.model != ""
  }

  /** An IPv4 network: its network address as a 32-bit number and its prefix
      length; `Valid` is what the standard library's network type accepts
      (host bits all zero). */
  datatype IPv4Network = IPv4Network(address: nat, prefixLength: nat) {
    function HostCount(): nat
      requires prefixLength <= 32
    {
      Pow2(32 - prefixLength)
    }

    predicate Valid() {
      && prefixLength <= 32
      && address % HostCount() == 0
      && address + HostCount() <= Pow2(32)
    }

    function Broadcast(): nat
      requires Valid()
    {
      address + HostCount() - 1
    }
  }

  function Pow2(n: nat): (r: nat)
    ensures r >= 1
  {
    if n == 0 then 1 else 2 * Pow2(n - 1)
  }

  /** 188.0.0.0/8, the network addresses are drawn from by default. */
  const DEFAULT_NETWORK: IPv4Network := IPv4Network(188 * 0x100_0000, 8)

  /** The dotted-quad octets of a 32-bit address, as `str(address).split(".")`
      read back with `int`. */
  function Octets(x: nat): (r: seq<int>)
    requires x < 0x1_0000_0000
    ensures |r| == 4
    ensures forall i :: 0 <= i < 4 ==> 0 <= r[i] <= 255
    ensures OctetsValue(r) == x
  {
    var q1 := x / 0x100;
    var q2 := q1 / 0x100;
    assert q2 < 0x1_0000 by {
      assert q1 < 0x100_0000;
    }
    [q2 / 0x100, q2 % 0x100, q1 % 0x100, x % 0x100]
  }

  /** The 32-bit address four octets spell. */
  function OctetsValue(o: seq<int>): int
    requires |o| == 4
  {
    ((o[0] * 0x100 + o[1]) * 0x100 + o[2]) * 0x100 + o[3]
  }

  /** The weight the checksum gives digit `d` at position `k` of the reversed
      digit string: even positions count the digit, odd positions count
      `(2 * d) // 10 + d % 10`. */
  function ChecksumTerm(k: nat, d: nat): nat {
    if k % 2 == 0 then d else d * 2 / 10 + d % 10
  }

  /** The digit values of a digit string, in order. */
  function DigitValues(s: string): (r: seq<nat>)
    requires AllDigits(s)
    ensures |r| == |s|
    ensures forall i :: 0 <= i < |s| ==> r[i] == DigitValue(s[i]) < 10
  {
    seq(|s|, i requires 0 <= i < |s| => DigitValue(s[i]))
  }

  function Reverse(s: seq<nat>): (r: seq<nat>)
    ensures |r| == |s|
    ensures forall i :: 0 <= i < |s| ==> r[i] == s[|s| - 1 - i]
  {
    seq(|s|, i requires 0 <= i < |s| => s[|s| - 1 - i])
  }

  /** `numbers[::2]`. */
  function EveryOther(ns: seq<nat>): (r: seq<nat>)
    ensures |r| == (|ns| + 1) / 2
  {
    if |ns| <= 1 then ns else [ns[0]] + EveryOther(ns[2..])
  }

  /** `numbers[1::2]`. */
  function OddPositions(ns: seq<nat>): seq<nat> {
    if ns == [] then [] else EveryOther(ns[1..])
  }

  function Sum(ns: seq<nat>): nat {
    if ns == [] then 0 else ns[0] + Sum(ns[1..])
  }

  /** `sum(i * 2 // 10 + i % 10 for i in ns)`. */
  function FoldedSum(ns: seq<nat>): nat {
    if ns == [] then 0 else ChecksumTerm(1, ns[0]) + FoldedSum(ns[1..])
  }

  /** The checksum digit the generator appends to the 14 drawn digits, as the
      source writes it: the sum over the reversed digits of the even-position
      digits and the folded odd-position digits, modulo 10. */
  function ImeiChecksum(pre: string): (c: char)
    requires AllDigits(pre)
    ensures IsDigit(c)
    ensures DigitValue(c) == WeightedSum(Reverse(DigitValues(pre)), 0) % 10
  {
    var numbers := Reverse(DigitValues(pre));
    SlicedSumIsWeighted(numbers);
    DigitChar((Sum(EveryOther(numbers)) + FoldedSum(OddPositions(numbers))) % 10)
  }

  /** The same sum read position by position: `ChecksumTerm(k, ns[k])` for
      every position `k`, counted from `start`. */
  function WeightedSum(ns: seq<nat>, start: nat): nat {
    if ns == [] then 0 else ChecksumTerm(start, ns[0]) + WeightedSum(ns[1..], start + 1)
  }

  /** The stride slices of the source add up to the positional sum. */
  lemma {:induction false} SlicedSumIsWeighted(ns: seq<nat>)
    ensures Sum(EveryOther(ns)) + FoldedSum(OddPositions(ns)) == WeightedSum(ns, 0)
  {
    if |ns| == 1 {
      assert OddPositions(ns) == [];
    } else if |ns| >= 2 {
      var rest := ns[2..];
      SlicedSumIsWeighted(rest);
      assert EveryOther(ns) == [ns[0]] + EveryOther(rest);
      assert OddPositions(ns) == [ns[1]] + OddPositions(rest) by {
        if rest != [] {
          assert ns[1..][2..] == rest[1..];
        }
      }
      assert ([ns[0]] + EveryOther(rest))[1..] == EveryOther(rest);
      assert ([ns[1]] + OddPositions(rest))[1..] == OddPositions(rest);
      assert ns[1..][1..] == rest;
      WeightedShift(rest, 0);
    }
  }

  /** Shifting the starting position by two leaves the weighted sum alone. */
  lemma {:induction false} WeightedShift(ns: seq<nat>, start: nat)
    ensures WeightedSum(ns, start + 2) == WeightedSum(ns, start)
  {
    if ns != [] {
      WeightedShift(ns[1..], start + 1);
    }
  }

  /** The check digit of section B of ISO/IEC 7812-1 (Luhn) for a payload:
      over the reversed payload, the digits at even positions are doubled
      and digit-summed, and the digit is the complement of the sum. */
  function LuhnCheckDigit(pre: string): (c: char)
    requires AllDigits(pre)
    ensures IsDigit(c)
  {
    DigitChar((10 - LuhnSum(Reverse(DigitValues(pre)), 0) % 10) % 10)
  }

  function LuhnSum(ns: seq<nat>, start: nat): nat {
    if ns == [] then 0
    else (if start % 2 == 0 then ns[0] * 2 / 10 + ns[0] * 2 % 10 else ns[0]) + LuhnSum(ns[1..], start + 1)
  }

  /** Weighted sums of a digit string that is zero except for its first
      place. */
  lemma {:induction false} SingleDigitSums(ns: seq<nat>, start: nat)
    requires |ns| >= 1 && forall i :: 1 <= i < |ns| ==> ns[i] == 0
    ensures WeightedSum(ns, start) == ChecksumTerm(start, ns[0])
    ensures LuhnSum(ns, start) == LuhnSum([ns[0]], start)
  {
    if |ns| > 1 {
      SingleDigitSums(ns[1..], start + 1);
    }
  }

  /** The generator's checksum is not the Luhn check digit: for the payload
      `00000000000001` it appends 1 where Luhn appends 8. */
  lemma ImeiChecksumIsNotLuhn(pre: string)
    requires |pre| == 14 && pre[13] == '1' && forall i :: 0 <= i < 13 ==> pre[i] == '0'
    ensures AllDigits(pre)
    ensures ImeiChecksum(pre) == '1'
    ensures LuhnCheckDigit(pre) == '8'
  {
    var ns := Reverse(DigitValues(pre));
    assert ns[0] == 1;
    SingleDigitSums(ns, 0);
  }

  /** A generator for one account; every method starts again from
      `Random(seed)`, so each output depends on the seed alone. */
  datatype RandomDeviceInfoGenerator = RandomDeviceInfoGenerator(seed: int) {

    /** 14 drawn digits followed by the checksum digit. */
    function Imei(prng: Prng): (r: string)
      ensures |r| == 15 && AllDigits(r)
      ensures r[..14] == RandStr(prng(seed), [], DIGITS, 14)
      ensures DigitValue(r[14]) == WeightedSum(Reverse(DigitValues(r[..14])), 0) % 10
    {
      var pre := RandStr(prng(seed), [], DIGITS, 14);
      assert AllDigits(pre);
      var r := pre + [ImeiChecksum(pre)];
      assert r[..14] == pre;
      r
    }

    /** The prefix followed by six characters of A-Z and 0-9. */
    function Ssid(prng: Prng, prefix: string): (r: string)
      ensures |r| == |prefix| + 6 && r[..|prefix|] == prefix
      ensures forall i :: |prefix| <= i < |r| ==> IsUpper(r[i]) || IsDigit(r[i])
      ensures r[|prefix|..] == RandStr(prng(seed), [], ASCII_UPPERCASE + DIGITS, 6)
    {
      var tail := RandStr(prng(seed), [], ASCII_UPPERCASE + DIGITS, 6);
      forall i | 0 <= i < 6
        ensures IsUpper(tail[i]) || IsDigit(tail[i])
      {
        UpperOrDigit(tail[i]);
      }
      prefix + tail
    }

    /** A build's android id and a device row, each drawn from its list. */
    function PickAndroidDevice(prng: Prng, builds: seq<AndroidBuild>, devices: seq<AndroidDevice>): (r: (string, AndroidDevice))
      requires |builds| > 0 && |devices| > 0
      ensures exists b :: b in builds && r.0 == b.androidId
      ensures r.1 in devices
    {
      var s := prng(seed);
      (builds[Below(s, [], |builds|)].androidId, devices[Below(s, [|builds|], |devices|)])
    }

    /** 32 drawn hexadecimal digits in the canonical UUID form. */
    function BootId(prng: Prng): (r: string)
      ensures |r| == 36
      ensures forall i :: 0 <= i < 36 ==> if IsDashPosition(i) then r[i] == '-' else IsLowerHex(r[i])
      ensures RemoveDashes(r) == Lower(RandStr(prng(seed), [], HEX_DIGITS, 32))
    {
      var hex := RandStr(prng(seed), [], HEX_DIGITS, 32);
      UuidText(hex)
    }

    /** `Linux version {major}.{minor}.{patch}-{build} (android-build@{mail}.source.android.com)`. */
    function ProcVersion(prng: Prng): (r: string)
      ensures exists v :: InRange(v) && r == RenderProcVersion(v)
    {
      var v := KernelParts(prng(seed));
      assert InRange(v);
      RenderProcVersion(v)
    }

    /** Six drawn pairs of hexadecimal digits, joined by colons and
        upper-cased. */
    function MacAddress(prng: Prng): (r: string)
      ensures |r| == 17
      ensures forall g :: 0 <= g < 5 ==> r[3 * g + 2] == ':'
      ensures forall g :: 0 <= g < 6 ==>
                && r[3 * g..3 * g + 2] == Upper(RandStr(prng(seed), Repeat(|HEX_DIGITS|, 2 * g), HEX_DIGITS, 2))
                && IsUpperHex(r[3 * g]) && IsUpperHex(r[3 * g + 1])
    {
      var s := prng(seed);
      var groups := seq(6, g requires 0 <= g < 6 => RandStr(s, Repeat(|HEX_DIGITS|, 2 * g), HEX_DIGITS, 2));
      MacLayout(groups);
      assert forall g :: 0 <= g < 6 ==> groups[g] == RandStr(s, Repeat(|HEX_DIGITS|, 2 * g), HEX_DIGITS, 2);
      Upper(Join(":", groups))
    }

    /** Four octets of an address drawn between the network and broadcast
        addresses of `network`, both included. */
    function IpAddress(prng: Prng, network: IPv4Network): (r: seq<int>)
      requires network.Valid()
      ensures |r| == 4
      ensures forall i :: 0 <= i < 4 ==> 0 <= r[i] <= 255
      ensures network.address <= OctetsValue(r) <= network.Broadcast()
    {
      Pow2Of32();
      Octets(RandInt(prng(seed), [], network.address, network.Broadcast()))
    }

    /** The decimal text of a number drawn from 0 to 2^32, both included. */
    function Incremental(prng: Prng): (r: string)
      ensures AllDigits(r)
      ensures DecimalValue(r) <= 0x1_0000_0000
      ensures r == NatToDecimal(DecimalValue(r))
    {
      var n := RandInt(prng(seed), [], 0, 0x1_0000_0000);
      DecimalRoundTrip(n);
      NatToDecimal(n)
    }
  }

  /** The default network is valid and every address drawn from it starts
      with 188. */
  lemma DefaultAddressStartsWith188(g: RandomDeviceInfoGenerator, prng: Prng)
    ensures DEFAULT_NETWORK.Valid()
    ensures g.IpAddress(prng, DEFAULT_NETWORK)[0] == 188
  {
    Pow2Value24();
    Pow2Of32();
  }

  /** The SSID's first drawn character is `B` and the IMEI starts with `2`. */
  predicate SsidBWithImei2(g: RandomDeviceInfoGenerator, prng: Prng) {
    var ssid, imei := g.Ssid(prng, "TP-LINK_"), g.Imei(prng);
    |ssid| > 8 && |imei| > 0 && ssid[8] == 'B' && imei[0] == '2'
  }

  /** Methods whose calls ask for different ranges read unrelated values:
      some seeded generator gives an SSID whose first drawn character is `B`
      together with an IMEI that starts with `2`. */
  lemma SsidAndImeiAreUncoupled(g: RandomDeviceInfoGenerator)
    ensures exists prng: Prng :: SsidBWithImei2(g, prng)
  {
    var prng: Prng := seed => SampleDraws;
    SampleDrawValues();
    FirstDrawsOf(g, prng);
  }

  /** A stream whose first draw below 36 is 1 and whose other draws are 2. */
  function SampleDraws(calls: seq<nat>): nat {
    if calls == [36] then 1 else 2
  }

  lemma SampleDrawValues()
    ensures SampleDraws([36]) == 1 && SampleDraws([10]) == 2
  {
    assert [10][0] != [36][0];
  }

  /** A generator whose first draw below 36 is 1 and whose first draw below
      10 is 2 gives an SSID drawn from `B` and an IMEI starting with `2`. */
  lemma FirstDrawsOf(g: RandomDeviceInfoGenerator, prng: Prng)
    requires prng(g.seed)([36]) == 1 && prng(g.seed)([10]) == 2
    ensures SsidBWithImei2(g, prng)
  {
    SsidFirstDraw(g, prng);
    ImeiFirstDraw(g, prng);
    DrawnCharacters(prng(g.seed)([36]), prng(g.seed)([10]));
  }

  lemma DrawnCharacters(k: nat, m: nat)
    requires k == 1 && m == 2
    ensures (ASCII_UPPERCASE + DIGITS)[k % 36] == 'B' && DIGITS[m % 10] == '2'
  {
  }

  /** The first drawn character of the SSID is the first draw below 36. */
  lemma SsidFirstDraw(g: RandomDeviceInfoGenerator, prng: Prng)
    ensures g.Ssid(prng, "TP-LINK_")[8] == (ASCII_UPPERCASE + DIGITS)[prng(g.seed)([36]) % 36]
  {
    var ssid := g.Ssid(prng, "TP-LINK_");
    assert ssid[8] == ssid[8..][0];
    assert [] + [|ASCII_UPPERCASE + DIGITS|] == [36];
  }

  /** The first digit of the IMEI is the first draw below 10. */
  lemma ImeiFirstDraw(g: RandomDeviceInfoGenerator, prng: Prng)
    ensures g.Imei(prng)[0] == DIGITS[prng(g.seed)([10]) % 10]
  {
    var imei := g.Imei(prng);
    assert imei[0] == imei[..14][0];
    assert [] + [|DIGITS|] == [10];
  }

  /** The MAC address and the boot id ask for the same ranges, so each pair
      of the MAC address is the matching pair of the boot id's digits,
      upper-cased. */
  lemma MacRepeatsBootId(g: RandomDeviceInfoGenerator, prng: Prng)
    ensures forall q :: 0 <= q < 6 ==>
              g.MacAddress(prng)[3 * q..3 * q + 2] == Upper(RemoveDashes(g.BootId(prng))[2 * q..2 * q + 2])
  {
    var s := prng(g.seed);
    var digits := RemoveDashes(g.BootId(prng));
    assert digits == Lower(RandStr(s, [], HEX_DIGITS, 32));
    forall q | 0 <= q < 6
      ensures g.MacAddress(prng)[3 * q..3 * q + 2] == Upper(digits[2 * q..2 * q + 2])
    {
      PairOfDigits(s, q);
    }
  }

  /** The two draws after `2 * q` hexadecimal draws are digits `2 * q` and
      `2 * q + 1` of a longer run of hexadecimal draws, whatever their case. */
  lemma PairOfDigits(s: Stream, q: nat)
    requires q < 16
    ensures Upper(RandStr(s, Repeat(|HEX_DIGITS|, 2 * q), HEX_DIGITS, 2))
            == Upper(Lower(RandStr(s, [], HEX_DIGITS, 32))[2 * q..2 * q + 2])
  {
    var pair := RandStr(s, Repeat(|HEX_DIGITS|, 2 * q), HEX_DIGITS, 2);
    var hex := RandStr(s, [], HEX_DIGITS, 32);
    assert Repeat(|HEX_DIGITS|, 2 * q) + Repeat(|HEX_DIGITS|, 0) == [] + Repeat(|HEX_DIGITS|, 2 * q);
    assert Repeat(|HEX_DIGITS|, 2 * q) + Repeat(|HEX_DIGITS|, 1) == [] + Repeat(|HEX_DIGITS|, 2 * q + 1);
    assert pair[0] == hex[2 * q] && pair[1] == hex[2 * q + 1];
    var a, b := Upper(pair), Upper(Lower(hex)[2 * q..2 * q + 2]);
    UpperOfLower(hex[2 * q]);
    UpperOfLower(hex[2 * q + 1]);
    assert a[0] == b[0] && a[1] == b[1];
  }

  /** Upper-casing forgets an earlier lower-casing. */
  lemma UpperOfLower(c: char)
    ensures UpperChar(LowerChar(c)) == UpperChar(c)
  {
  }

  lemma Pow2Of32()
    ensures Pow2(32) == 0x1_0000_0000
  {
    Pow2Value24();
    Pow2Add(8, 24);
    Pow2Value8();
  }

  lemma Pow2Value8()
    ensures Pow2(8) == 256
  {
  }

  lemma Pow2Value24()
    ensures Pow2(24) == 0x100_0000
  {
    Pow2Add(8, 16);
    Pow2Add(8, 8);
    Pow2Value8();
  }

  lemma {:induction false} Pow2Add(a: nat, b: nat)
    ensures Pow2(a + b) == Pow2(a) * Pow2(b)
  {
    if a > 0 {
      Pow2Add(a - 1, b);
    }
  }

  /** Positions 8, 13, 18 and 23 hold the dashes of the 8-4-4-4-12 form. */
  predicate IsDashPosition(i: int) {
    i == 8 || i == 13 || i == 18 || i == 23
  }

  /** `str(UUID(hex))` for 32 hexadecimal digits: the same digits in lower
      case, split 8-4-4-4-12 by dashes as section 3 of RFC 4122 lays out. */
  function UuidText(hex: string): (r: string)
    requires |hex| == 32 && forall i :: 0 <= i < 32 ==> hex[i] in HEX_DIGITS
    ensures |r| == 36
    ensures forall i :: 0 <= i < 36 ==> if IsDashPosition(i) then r[i] == '-' else IsLowerHex(r[i])
    ensures RemoveDashes(r) == Lower(hex)
  {
    var h := Lower(hex);
    var r := Dashed(h[..8], Dashed(h[8..12], Dashed(h[12..16], Dashed(h[16..20], h[20..]))));
    forall i | 0 <= i < 32
      ensures IsLowerHex(h[i])
    {
      LowerHex(hex[i]);
    }
    UuidLayout(h, r);
    UuidDigits(h, r);
    r
  }

  /** Two groups joined by a dash. */
  function Dashed(a: string, b: string): string {
    a + "-" + b
  }

  /** Where each character of the 8-4-4-4-12 text comes from: a dash at the
      four dash positions, a lower-case digit everywhere else. */
  lemma UuidLayout(h: string, r: string)
    requires |h| == 32 && forall i :: 0 <= i < 32 ==> IsLowerHex(h[i])
    requires r == Dashed(h[..8], Dashed(h[8..12], Dashed(h[12..16], Dashed(h[16..20], h[20..]))))
    ensures |r| == 36
    ensures forall i :: 0 <= i < 36 ==> if IsDashPosition(i) then r[i] == '-' else IsLowerHex(r[i])
  {
    var r4 := Dashed(h[16..20], h[20..]);
    var r3 := Dashed(h[12..16], r4);
    var r2 := Dashed(h[8..12], r3);
    HexGroup(h, 20, 32);
    assert h[20..32] == h[20..];
    LaidOutFrom(h[20..], 24);
    HexGroup(h, 16, 20);
    DashedLaidOut(h[16..20], h[20..], 19);
    HexGroup(h, 12, 16);
    DashedLaidOut(h[12..16], r4, 14);
    HexGroup(h, 8, 12);
    DashedLaidOut(h[8..12], r3, 9);
    HexGroup(h, 0, 8);
    assert h[0..8] == h[..8];
    DashedLaidOut(h[..8], r2, 0);
  }

  /** `s` sits at `start` of the UUID text: dashes at the dash positions,
      lower-case digits elsewhere. */
  predicate LaidOut(s: string, start: nat) {
    forall i :: 0 <= i < |s| ==> if IsDashPosition(start + i) then s[i] == '-' else IsLowerHex(s[i])
  }

  /** A slice of lower-case digits holds only lower-case digits. */
  lemma HexGroup(h: string, lo: nat, hi: nat)
    requires lo <= hi <= |h| && forall i :: 0 <= i < |h| ==> IsLowerHex(h[i])
    ensures forall i :: 0 <= i < |h[lo..hi]| ==> IsLowerHex(h[lo..hi][i])
  {
    forall i | 0 <= i < |h[lo..hi]|
      ensures IsLowerHex(h[lo..hi][i])
    {
      assert h[lo..hi][i] == h[lo + i];
    }
  }

  /** A run of digits past the last dash position is laid out. */
  lemma LaidOutFrom(a: string, start: nat)
    requires start > 23 && forall i :: 0 <= i < |a| ==> IsLowerHex(a[i])
    ensures LaidOut(a, start)
  {
  }

  /** A group of digits that covers no dash position, then a dash at a dash
      position, then a laid-out rest, is laid out. */
  lemma DashedLaidOut(a: string, b: string, start: nat)
    requires forall i :: 0 <= i < |a| ==> IsLowerHex(a[i])
    requires forall i :: start <= i < start + |a| ==> !IsDashPosition(i)
    requires IsDashPosition(start + |a|)
    requires LaidOut(b, start + |a| + 1)
    ensures LaidOut(Dashed(a, b), start)
  {
    var r := Dashed(a, b);
    forall i | 0 <= i < |r|
      ensures if IsDashPosition(start + i) then r[i] == '-' else IsLowerHex(r[i])
    {
      if i > |a| {
        assert r[i] == b[i - |a| - 1];
      }
    }
  }

  /** Taking the dashes out of the 8-4-4-4-12 text gives back the digits. */
  lemma UuidDigits(h: string, r: string)
    requires |h| == 32 && forall i :: 0 <= i < 32 ==> IsLowerHex(h[i])
    requires r == Dashed(h[..8], Dashed(h[8..12], Dashed(h[12..16], Dashed(h[16..20], h[20..]))))
    ensures RemoveDashes(r) == h
  {
    var r4 := Dashed(h[16..20], h[20..]);
    var r3 := Dashed(h[12..16], r4);
    var r2 := Dashed(h[8..12], r3);
    DashStep(h[16..20], h[20..]);
    DashStep(h[12..16], r4);
    DashStep(h[8..12], r3);
    DashStep(h[..8], r2);
    RemoveDashesNone(h[20..]);
    assert h[16..20] + h[20..] == h[16..];
    assert h[12..16] + h[16..] == h[12..];
    assert h[8..12] + h[12..] == h[8..];
    assert h[..8] + h[8..] == h;
  }

  /** One dash between a dash-free group and the rest. */
  lemma DashStep(a: string, b: string)
    requires forall i :: 0 <= i < |a| ==> IsLowerHex(a[i])
    ensures |Dashed(a, b)| == |a| + 1 + |b|
    ensures forall i :: 0 <= i < |a| ==> Dashed(a, b)[i] == a[i]
    ensures Dashed(a, b)[|a|] == '-'
    ensures forall i :: |a| < i <= |a| + |b| ==> Dashed(a, b)[i] == b[i - |a| - 1]
    ensures RemoveDashes(Dashed(a, b)) == a + RemoveDashes(b)
  {
    assert a + "-" + b == a + ("-" + b);
    RemoveDashesSplit(a, "-" + b);
    assert ("-" + b)[1..] == b;
  }

  /** The text with its dashes taken out, as `UUID` reads it back. */
  function RemoveDashes(s: string): (r: string)
    ensures '-' !in r
  {
    if s == [] then [] else (if s[0] == '-' then [] else [s[0]]) + RemoveDashes(s[1..])
  }

  lemma {:induction false} RemoveDashesAppend(a: string, b: string)
    ensures RemoveDashes(a + b) == RemoveDashes(a) + RemoveDashes(b)
  {
    if a != [] {
      assert (a + b)[1..] == a[1..] + b;
      RemoveDashesAppend(a[1..], b);
      assert (a + b)[0] == a[0];
      var head := if a[0] == '-' then [] else [a[0]];
      assert RemoveDashes(a + b) == head + RemoveDashes(a[1..] + b);
      assert RemoveDashes(a) == head + RemoveDashes(a[1..]);
    } else {
      assert a + b == b;
    }
  }

  lemma {:induction false} RemoveDashesNone(a: string)
    requires forall i :: 0 <= i < |a| ==> IsLowerHex(a[i])
    ensures RemoveDashes(a) == a
  {
    if a != [] {
      RemoveDashesNone(a[1..]);
    }
  }

  /** Removing the dashes of `a + "-" + b`, where `a` holds no dash. */
  lemma RemoveDashesSplit(a: string, b: string)
    requires forall i :: 0 <= i < |a| ==> IsLowerHex(a[i])
    ensures RemoveDashes(a + b) == a + RemoveDashes(b)
  {
    RemoveDashesAppend(a, b);
    RemoveDashesNone(a);
  }

  /** Joining pairs with a colon: pair `g` sits at `3 * g` and `3 * g + 1`,
      and a colon follows every pair but the last. */
  lemma {:induction false} JoinPairs(parts: seq<string>)
    requires |parts| >= 1 && forall g :: 0 <= g < |parts| ==> |parts[g]| == 2
    ensures |Join(":", parts)| == 3 * |parts| - 1
    ensures forall g :: 0 <= g < |parts| ==>
              Join(":", parts)[3 * g] == parts[g][0] && Join(":", parts)[3 * g + 1] == parts[g][1]
    ensures forall g :: 0 <= g < |parts| - 1 ==> Join(":", parts)[3 * g + 2] == ':'
  {
    if |parts| > 1 {
      var init := parts[..|parts| - 1];
      JoinPairs(init);
      assert Join(":", parts) == Join(":", init) + ":" + parts[|parts| - 1];
    }
  }

  /** Six hexadecimal pairs joined by colons and upper-cased. */
  lemma MacLayout(groups: seq<string>)
    requires |groups| == 6
    requires forall g :: 0 <= g < 6 ==> |groups[g]| == 2 && groups[g][0] in HEX_DIGITS && groups[g][1] in HEX_DIGITS
    ensures |Upper(Join(":", groups))| == 17
    ensures forall g :: 0 <= g < 5 ==> Upper(Join(":", groups))[3 * g + 2] == ':'
    ensures forall g :: 0 <= g < 6 ==>
              && Upper(Join(":", groups))[3 * g..3 * g + 2] == Upper(groups[g])
              && IsUpperHex(Upper(Join(":", groups))[3 * g])
              && IsUpperHex(Upper(Join(":", groups))[3 * g + 1])
  {
    JoinPairs(groups);
    UpperPairs(Join(":", groups), groups);
  }

  lemma UpperPairs(j: string, groups: seq<string>)
    requires |groups| == 6 && |j| == 17
    requires forall g :: 0 <= g < 6 ==> |groups[g]| == 2 && groups[g][0] in HEX_DIGITS && groups[g][1] in HEX_DIGITS
    requires forall g :: 0 <= g < 6 ==> j[3 * g] == groups[g][0] && j[3 * g + 1] == groups[g][1]
    requires forall g :: 0 <= g < 5 ==> j[3 * g + 2] == ':'
    ensures forall g :: 0 <= g < 5 ==> Upper(j)[3 * g + 2] == ':'
    ensures forall g :: 0 <= g < 6 ==>
              && Upper(j)[3 * g..3 * g + 2] == Upper(groups[g])
              && IsUpperHex(Upper(j)[3 * g])
              && IsUpperHex(Upper(j)[3 * g + 1])
  {
    forall g | 0 <= g < 6
      ensures Upper(j)[3 * g..3 * g + 2] == Upper(groups[g])
      ensures IsUpperHex(Upper(j)[3 * g]) && IsUpperHex(Upper(j)[3 * g + 1])
    {
      UpperGroup(j, groups[g], 3 * g);
      UpperHex(groups[g][0]);
      UpperHex(groups[g][1]);
    }
  }

  /** One two-character group at position `p` of the address, upper-cased. */
  lemma UpperGroup(j: string, pair: string, p: nat)
    requires |pair| == 2 && p + 2 <= |j| && j[p] == pair[0] && j[p + 1] == pair[1]
    ensures Upper(j)[p..p + 2] == Upper(pair)
    ensures Upper(j)[p] == UpperChar(pair[0]) && Upper(j)[p + 1] == UpperChar(pair[1])
  {
    var r := Upper(j);
    assert r[p..p + 2][0] == r[p];
    assert r[p..p + 2][1] == r[p + 1];
  }

  /** The pieces of the kernel version line. */
  datatype KernelVersion = KernelVersion(major: int, minor: int, patch: int, buildId: string, mailPrefix: string)

  /** The kernel version drawn from one stream: three numbers, then eight
      letters or digits, then twelve hexadecimal digits in lower case. */
  function KernelParts(s: Stream): (v: KernelVersion)
    ensures InRange(v)
  {
    var mail := RandStr(s, [3, 20, 100] + Repeat(|ASCII_LETTERS + DIGITS|, 8), HEX_DIGITS, 12);
    forall i | 0 <= i < 12
      ensures IsLowerHex(Lower(mail)[i])
    {
      LowerHex(mail[i]);
    }
    KernelVersion(RandInt(s, [], 3, 5), RandInt(s, [3], 0, 19), RandInt(s, [3, 20], 0, 99),
                  RandStr(s, [3, 20, 100], ASCII_LETTERS + DIGITS, 8), Lower(mail))
  }

  /** Major 3 to 5, minor 0 to 19, patch 0 to 99, an eight-character
      alphanumeric build id and a twelve-digit lower-case hexadecimal mail
      prefix. */
  predicate InRange(v: KernelVersion) {
    && 3 <= v.major <= 5 && 0 <= v.minor <= 19 && 0 <= v.patch <= 99
    && |v.buildId| == 8 && (forall i :: 0 <= i < 8 ==> v.buildId[i] in ASCII_LETTERS + DIGITS)
    && |v.mailPrefix| == 12 && (forall i :: 0 <= i < 12 ==> IsLowerHex(v.mailPrefix[i]))
  }

  function RenderProcVersion(v: KernelVersion): string {
    "Linux version " + IntToDecimal(v.major) + "." + IntToDecimal(v.minor) + "." + IntToDecimal(v.patch)
    + "-" + v.buildId + " (android-build@" + v.mailPrefix + ".source.android.com)"
  }
}

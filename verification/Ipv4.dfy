/**
 IPv4 addresses as text and the second address of a /31 block (RFC 4632 section 3.1,
 RFC 3021 section 2.1). The parser accepts strict dotted decimal: four decimal fields of
 at most 255, without leading zeros.
 */
module Ipv4 {
  import opened Wrappers

  type Octet = x: int | 0 <= x < 256

  datatype Address = Address(a: Octet, b: Octet, c: Octet, d: Octet)

  function Value(x: Address): int {
    ((x.a * 256 + x.b) * 256 + x.c) * 256 + x.d
  }

  // ---------- printing ----------

  function Digit(n: int): char
    requires 0 <= n < 10
  {
    '0' + n as char
  }

  function OctetText(n: Octet): string {
    if n < 10 then [Digit(n)]
    else if n < 100 then [Digit(n / 10), Digit(n % 10)]
    else [Digit(n / 100), Digit(n / 10 % 10), Digit(n % 10)]
  }

  function Text(x: Address): string {
    OctetText(x.a) + "." + (OctetText(x.b) + "." + (OctetText(x.c) + "." + OctetText(x.d)))
  }

  // ---------- parsing ----------

  predicate IsDigit(c: char) {
    '0' <= c <= '9'
  }

  function DigitValue(c: char): (n: int)
    requires IsDigit(c)
    ensures 0 <= n < 10 && Digit(n) == c
  {
    c as int - '0' as int
  }

  function ParseOctet(s: string): Option<Octet> {
    if |s| == 1 && IsDigit(s[0]) then
      Some(DigitValue(s[0]))
    else if |s| == 2 && IsDigit(s[0]) && IsDigit(s[1]) && s[0] != '0' then
      Some(DigitValue(s[0]) * 10 + DigitValue(s[1]))
    else if |s| == 3 && IsDigit(s[0]) && IsDigit(s[1]) && IsDigit(s[2]) && s[0] != '0' then
      var n := DigitValue(s[0]) * 100 + DigitValue(s[1]) * 10 + DigitValue(s[2]);
      if n < 256 then Some(n) else None
    else
      None
  }

  /** Position of the first dot, or the length of the text when it has none. */
  function FirstDot(s: string): (k: nat)
    ensures k <= |s|
    ensures forall i :: 0 <= i < k ==> s[i] != '.'
    ensures k < |s| ==> s[k] == '.'
  {
    if s == "" || s[0] == '.' then 0 else 1 + FirstDot(s[1..])
  }

  function ParseFields(s: string, n: nat): Option<seq<Octet>> {
    var k := FirstDot(s);
    var head := ParseOctet(s[..k]);
    if head.None? then None
    else if n == 0 then
      if k == |s| then Some([head.value]) else None
    else if k == |s| then None
    else
      var tail := ParseFields(s[k + 1..], n - 1);
      if tail.None? then None else Some([head.value] + tail.value)
  }

  function Parse(s: string): Option<Address> {
    var fields := ParseFields(s, 3);
    if fields.Some? && |fields.value| == 4 then
      Some(Address(fields.value[0], fields.value[1], fields.value[2], fields.value[3]))
    else
      None
  }

  // ---------- the parser accepts exactly what the printer prints ----------

  lemma OctetRoundTrip(n: Octet)
    ensures ParseOctet(OctetText(n)) == Some(n)
    ensures forall i :: 0 <= i < |OctetText(n)| ==> IsDigit(OctetText(n)[i])
  {
  }

  lemma ParsedOctetIsItsText(s: string)
    requires ParseOctet(s).Some?
    ensures s == OctetText(ParseOctet(s).value)
  {
    var n: int := ParseOctet(s).value;
    if |s| == 2 {
      assert n / 10 == DigitValue(s[0]) && n % 10 == DigitValue(s[1]);
    } else if |s| == 3 {
      var x, y, z := DigitValue(s[0]), DigitValue(s[1]), DigitValue(s[2]);
      assert n == (x * 10 + y) * 10 + z;
      assert n / 10 == x * 10 + y && n % 10 == z;
      assert n / 100 == x;
    }
  }

  function FieldsText(fs: seq<Octet>): string
    requires fs != []
  {
    if |fs| == 1 then OctetText(fs[0]) else OctetText(fs[0]) + "." + FieldsText(fs[1..])
  }

  lemma FirstDotAfterDigits(head: string, rest: string)
    requires forall i :: 0 <= i < |head| ==> IsDigit(head[i])
    requires rest != "" ==> rest[0] == '.'
    ensures FirstDot(head + rest) == |head| && (head + rest)[..|head|] == head
    ensures rest != "" ==> (head + rest)[|head| + 1..] == rest[1..]
  {
    var s := head + rest;
    assert forall i :: 0 <= i < |head| ==> s[i] == head[i];
    assert rest != "" ==> s[|head|] == '.';
  }

  /** One field more in front of fields that parse. */
  lemma FieldInFront(x: Octet, rest: string, fs: seq<Octet>, n: nat)
    requires ParseFields(rest, n) == Some(fs)
    ensures ParseFields(OctetText(x) + ("." + rest), n + 1) == Some([x] + fs)
  {
    OctetRoundTrip(x);
    FirstDotAfterDigits(OctetText(x), "." + rest);
    assert ("." + rest)[1..] == rest;
  }

  lemma LastField(x: Octet)
    ensures ParseFields(OctetText(x), 0) == Some([x])
  {
    OctetRoundTrip(x);
    FirstDotAfterDigits(OctetText(x), "");
    assert OctetText(x) + "" == OctetText(x);
  }

  lemma FieldsTextUnfolds(fs: seq<Octet>)
    requires |fs| > 1
    ensures FieldsText(fs) == OctetText(fs[0]) + ("." + FieldsText(fs[1..]))
  {
  }

  lemma {:induction false} FieldsRoundTrip(fs: seq<Octet>)
    requires fs != []
    ensures ParseFields(FieldsText(fs), |fs| - 1) == Some(fs)
  {
    if |fs| == 1 {
      LastField(fs[0]);
      assert fs == [fs[0]];
    } else {
      var rest := fs[1..];
      FieldsRoundTrip(rest);
      FieldInFront(fs[0], FieldsText(rest), rest, |rest| - 1);
      FieldsTextUnfolds(fs);
      assert fs == [fs[0]] + rest;
    }
  }

  lemma SplitAtDot(s: string, k: nat)
    requires k < |s| && s[k] == '.'
    ensures s == s[..k] + "." + s[k + 1..]
  {
  }

  lemma {:induction false} ParsedFieldsAreTheirText(s: string, n: nat)
    requires ParseFields(s, n).Some?
    ensures var fs := ParseFields(s, n).value; |fs| == n + 1 && s == FieldsText(fs)
  {
    var k := FirstDot(s);
    ParsedOctetIsItsText(s[..k]);
    if n > 0 {
      var tail := ParseFields(s[k + 1..], n - 1).value;
      ParsedFieldsAreTheirText(s[k + 1..], n - 1);
      SplitAtDot(s, k);
      assert ([ParseOctet(s[..k]).value] + tail)[1..] == tail;
    } else {
      assert s[..k] == s;
    }
  }

  lemma TextIsFieldsText(x: Address)
    ensures Text(x) == FieldsText([x.a, x.b, x.c, x.d])
  {
    assert [x.a, x.b, x.c, x.d][1..] == [x.b, x.c, x.d];
    assert [x.b, x.c, x.d][1..] == [x.c, x.d];
    assert [x.c, x.d][1..] == [x.d];
    assert FieldsText([x.d]) == OctetText(x.d);
    assert FieldsText([x.c, x.d]) == OctetText(x.c) + "." + OctetText(x.d);
    assert FieldsText([x.b, x.c, x.d]) == OctetText(x.b) + "." + (OctetText(x.c) + "." + OctetText(x.d));
  }

  /** Parsing and printing are inverse: a text parses to an address exactly when it is its printed form. */
  lemma ParseExactlyPrinted(s: string, x: Address)
    ensures Parse(s) == Some(x) <==> s == Text(x)
  {
    TextIsFieldsText(x);
    FieldsRoundTrip([x.a, x.b, x.c, x.d]);
    if Parse(s) == Some(x) {
      ParsedFieldsAreTheirText(s, 3);
      var fs := ParseFields(s, 3).value;
      assert fs == [x.a, x.b, x.c, x.d];
    }
  }

  // ---------- the second address of a block ----------

  const BLOCK_SUFFIX := "/31"

  function TrimBlockSuffix(s: string): string {
    if |s| >= 3 && s[|s| - 3..] == BLOCK_SUFFIX then s[..|s| - 3] else s
  }

  /** The address with its last byte increased, as a byte. */
  function Next(x: Address): Address {
    x.(d := (x.d + 1) % 256)
  }

  /** What the cluster controller derives from the CIDR text; None where it indexes a nil address. */
  function ControlPlaneText(cidr: string): Option<string> {
    match Parse(TrimBlockSuffix(cidr))
    case None => None
    case Some(x) => Some(Text(Next(x)))
  }

  /** The two addresses of the /31 block around an address differ in the last bit only. */
  predicate SameBlock(x: Address, y: Address) {
    Value(x) / 2 == Value(y) / 2
  }

  /** x is the network address of its /31 block. */
  predicate Aligned(x: Address) {
    Value(x) % 2 == 0
  }

  /** Byte arithmetic yields the successor unless the last byte wraps, and stays in the block exactly when aligned. */
  lemma NextStaysInBlockIffAligned(x: Address)
    ensures Value(Next(x)) == Value(x) + 1 <==> x.d != 255
    ensures SameBlock(x, Next(x)) <==> Aligned(x)
  {
    var k := (x.a * 256 + x.b) * 256 + x.c;
    assert Value(x) == 256 * k + x.d;
    assert Value(Next(x)) == 256 * k + (x.d + 1) % 256;
    assert Value(x) / 2 == 128 * k + x.d / 2;
  }

  /** A /31 block has no third address. */
  lemma BlockHasTwoAddresses(x: Address, y: Address)
    requires Aligned(x) && SameBlock(x, y)
    ensures Next(x) != x
    ensures y == x || y == Next(x)
  {
    NextStaysInBlockIffAligned(x);
    assert Value(y) == Value(x) || Value(y) == Value(x) + 1;
    ValueInjective(y, if Value(y) == Value(x) then x else Next(x));
  }

  lemma ValueInjective(x: Address, y: Address)
    requires Value(x) == Value(y)
    ensures x == y
  {
  }

  lemma TrimUndoesAppend(s: string)
    ensures TrimBlockSuffix(s + BLOCK_SUFFIX) == s
  {
    var t := s + BLOCK_SUFFIX;
    assert t[|t| - 3..] == BLOCK_SUFFIX;
    assert t[..|t| - 3] == s;
  }

  lemma TextHasNoSuffix(x: Address)
    ensures TrimBlockSuffix(Text(x)) == Text(x)
  {
    var s := Text(x);
    OctetRoundTrip(x.a);
    OctetRoundTrip(x.b);
    OctetRoundTrip(x.c);
    OctetRoundTrip(x.d);
    assert forall i :: 0 <= i < |s| ==> IsDigit(s[i]) || s[i] == '.';
    assert |s| >= 3 ==> s[|s| - 3..][0] == s[|s| - 3];
    assert BLOCK_SUFFIX[0] == '/';
  }

  /** The text is the printed address, with or without the block suffix. */
  predicate Describes(cidr: string, x: Address) {
    cidr == Text(x) + "/31" || cidr == Text(x)
  }

  lemma DescribedTrims(cidr: string, x: Address)
    ensures TrimBlockSuffix(cidr) == Text(x) <==> Describes(cidr, x)
  {
    TrimUndoesAppend(Text(x));
    TextHasNoSuffix(x);
    if |cidr| >= 3 && cidr[|cidr| - 3..] == BLOCK_SUFFIX {
      assert cidr == cidr[..|cidr| - 3] + BLOCK_SUFFIX;
    }
  }

  /** The derivation succeeds exactly on printed addresses, with or without the block suffix. */
  lemma DerivedExactly(cidr: string, x: Address)
    ensures Describes(cidr, x) ==> ControlPlaneText(cidr) == Some(Text(Next(x)))
    ensures ControlPlaneText(cidr).Some? <==> exists y :: Describes(cidr, y)
  {
    DescribedTrims(cidr, x);
    ParseExactlyPrinted(TrimBlockSuffix(cidr), x);
    if ControlPlaneText(cidr).Some? {
      var y := Parse(TrimBlockSuffix(cidr)).value;
      ParseExactlyPrinted(TrimBlockSuffix(cidr), y);
      DescribedTrims(cidr, y);
    }
    if y :| Describes(cidr, y) {
      DescribedTrims(cidr, y);
      ParseExactlyPrinted(TrimBlockSuffix(cidr), y);
    }
  }

  /** What is published for a block's CIDR text reads back as the next address. */
  lemma PublishedReadsBack(x: Address)
    ensures ControlPlaneText(Text(x) + BLOCK_SUFFIX) == Some(Text(Next(x)))
    ensures Parse(Text(Next(x))) == Some(Next(x))
  {
    DerivedExactly(Text(x) + BLOCK_SUFFIX, x);
    ParseExactlyPrinted(Text(Next(x)), Next(x));
  }

  /** From a well-formed, aligned /31 the controller publishes the text of the block's other address. */
  lemma AlignedBlockYieldsOtherAddress(x: Address)
    requires Aligned(x)
    ensures ControlPlaneText(Text(x) + BLOCK_SUFFIX) == Some(Text(Next(x)))
    ensures Parse(Text(Next(x))) == Some(Next(x))
    ensures Next(x) != x && SameBlock(x, Next(x)) && Value(Next(x)) == Value(x) + 1
  {
    PublishedReadsBack(x);
    NextStaysInBlockIffAligned(x);
    BlockHasTwoAddresses(x, x);
    AlignedEndsEven(x);
  }

  lemma AlignedEndsEven(x: Address)
    requires Aligned(x)
    ensures x.d != 255
  {
    var k := (x.a * 256 + x.b) * 256 + x.c;
    assert Value(x) == 256 * k + x.d;
  }

  /** A published address is never the empty text, so a recorded one is recognised as recorded. */
  lemma DerivedTextNotEmpty(cidr: string)
    requires ControlPlaneText(cidr).Some?
    ensures ControlPlaneText(cidr).value != ""
  {
  }

  // ---------- what the texts denote ----------

  function Pow10(n: nat): nat {
    if n == 0 then 1 else 10 * Pow10(n - 1)
  }

  /** The characters of a text, each taken for its distance from '0' (code 48) and weighted by its place. */
  function Numeral(t: string): int {
    if t == "" then 0 else (t[0] as int - 48) * Pow10(|t| - 1) + Numeral(t[1..])
  }

  /** t is the decimal numeral of n: the ten digits only, and no leading zero. */
  predicate Denotes(t: string, n: int) {
    && t != "" && (forall i :: 0 <= i < |t| ==> '0' <= t[i] <= '9') && (t[0] == '0' ==> |t| == 1)
    && Numeral(t) == n
  }

  lemma ShortNumeral(t: string)
    requires 1 <= |t| <= 3
    ensures Numeral(t) == if |t| == 1 then t[0] as int - 48
                          else if |t| == 2 then (t[0] as int - 48) * 10 + (t[1] as int - 48)
                          else (t[0] as int - 48) * 100 + (t[1] as int - 48) * 10 + (t[2] as int - 48)
  {
    assert Pow10(1) == 10 && Pow10(2) == 100;
    LastDigit(t[|t| - 1..]);
    if |t| == 2 {
      assert t[1..] == [t[1]];
    } else if |t| == 3 {
      assert t[1..] == [t[1], t[2]] && t[1..][1..] == [t[2]];
      assert Numeral(t[1..]) == (t[1] as int - 48) * 10 + Numeral(t[1..][1..]);
    }
  }

  lemma LastDigit(t: string)
    requires |t| == 1
    ensures Numeral(t) == t[0] as int - 48
  {
    assert t[1..] == "";
  }

  lemma {:induction false} Pow10Grows(n: nat)
    ensures Pow10(n) >= 1 && (n >= 3 ==> Pow10(n) >= 1000)
  {
    if n > 0 {
      Pow10Grows(n - 1);
      if n == 3 {
        assert Pow10(2) == 10 * Pow10(1) && Pow10(1) == 10 * Pow10(0);
      }
    }
  }

  lemma {:induction false} NumeralIsNatural(t: string)
    requires forall i :: 0 <= i < |t| ==> '0' <= t[i] <= '9'
    ensures Numeral(t) >= 0
    ensures t != "" && t[0] != '0' ==> Numeral(t) >= Pow10(|t| - 1)
  {
    if t != "" {
      NumeralIsNatural(t[1..]);
      assert '0' <= t[0] <= '9';
      WeightedDigit(t[0] as int - 48, Pow10(|t| - 1));
    }
  }

  lemma WeightedDigit(d: int, p: nat)
    requires d >= 0
    ensures d * p >= 0 && (d >= 1 ==> d * p >= p)
  {
    if d >= 1 {
      assert d * p == (d - 1) * p + p;
    }
  }

  /** A number below 1000 has no longer numeral than three digits. */
  lemma SmallNumeralIsShort(t: string, n: int)
    requires Denotes(t, n) && n < 1000
    ensures |t| <= 3
  {
    NumeralIsNatural(t);
    if |t| > 3 {
      Pow10Grows(|t| - 1);
    }
  }

  /** An octet is printed as its decimal numeral. */
  lemma OctetTextDenotes(n: Octet)
    ensures Denotes(OctetText(n), n)
  {
    ShortNumeral(OctetText(n));
  }

  /** A field parses exactly if it is the decimal numeral of an octet, and then to that octet. */
  lemma ParsesExactlyNumerals(s: string, n: Octet)
    ensures ParseOctet(s) == Some(n) <==> Denotes(s, n)
  {
    if Denotes(s, n) {
      SmallNumeralIsShort(s, n);
    }
    if 1 <= |s| <= 3 {
      ShortNumeral(s);
    }
  }

  /** Four texts between dots. */
  function Dotted(p: string, q: string, r: string, t: string): string {
    p + "." + (q + "." + (r + "." + t))
  }

  predicate DenoteAddress(p: string, q: string, r: string, t: string, x: Address) {
    Denotes(p, x.a) && Denotes(q, x.b) && Denotes(r, x.c) && Denotes(t, x.d)
  }

  lemma NumeralIsOctetText(s: string, n: Octet)
    requires Denotes(s, n)
    ensures s == OctetText(n)
  {
    ParsesExactlyNumerals(s, n);
    ParsedOctetIsItsText(s);
  }

  /** A text parses to an address exactly if it is four numerals between dots, the most significant first. */
  lemma ParsesExactlyDottedNumerals(s: string, x: Address)
    ensures Parse(s) == Some(x) <==> exists p, q, r, t :: DenoteAddress(p, q, r, t, x) && s == Dotted(p, q, r, t)
  {
    ParseExactlyPrinted(s, x);
    if Parse(s) == Some(x) {
      OctetTextDenotes(x.a);
      OctetTextDenotes(x.b);
      OctetTextDenotes(x.c);
      OctetTextDenotes(x.d);
      assert s == Dotted(OctetText(x.a), OctetText(x.b), OctetText(x.c), OctetText(x.d));
    }
    forall p, q, r, t | DenoteAddress(p, q, r, t, x) && s == Dotted(p, q, r, t)
      ensures s == Text(x)
    {
      NumeralIsOctetText(p, x.a);
      NumeralIsOctetText(q, x.b);
      NumeralIsOctetText(r, x.c);
      NumeralIsOctetText(t, x.d);
    }
  }

  /**
   From the CIDR of a block, written in numerals, the controller publishes the same first three
   fields and the numeral of the next byte.
   */
  lemma PublishedInNumerals(p: string, q: string, r: string, t: string, x: Address) returns (t': string)
    requires DenoteAddress(p, q, r, t, x)
    ensures ControlPlaneText(Dotted(p, q, r, t) + "/31") == Some(Dotted(p, q, r, t'))
    ensures Denotes(t', (x.d + 1) % 256)
  {
    NumeralIsOctetText(p, x.a);
    NumeralIsOctetText(q, x.b);
    NumeralIsOctetText(r, x.c);
    NumeralIsOctetText(t, x.d);
    t' := OctetText((x.d + 1) % 256);
    OctetTextDenotes((x.d + 1) % 256);
    DerivedExactly(Dotted(p, q, r, t) + "/31", x);
  }

  // ---------- the controller's in-place computation ----------

  /** net.ParseIP: a 16-byte buffer holding the IPv4-mapped form, or nil. */
  method ParseIP(s: string) returns (addr: array?<Octet>)
    ensures addr == null <==> Parse(s).None?
    ensures addr != null ==> fresh(addr) && addr.Length == 16 && Mapped(addr[..], Parse(s).value)
  {
    match Parse(s) {
      case None => addr := null;
      case Some(x) =>
        addr := new Octet[16](i => if i == 10 || i == 11 then 255 else 0);
        addr[12], addr[13], addr[14], addr[15] := x.a, x.b, x.c, x.d;
    }
  }

  predicate Mapped(bytes: seq<Octet>, x: Address)
  {
    |bytes| == 16
    && (forall i :: 0 <= i < 10 ==> bytes[i] == 0)
    && bytes[10] == 255 && bytes[11] == 255
    && bytes[12] == x.a && bytes[13] == x.b && bytes[14] == x.c && bytes[15] == x.d
  }

  /** Parses the trimmed CIDR, increments the last byte in place and prints the buffer. */
  method DeriveControlPlane(cidr: string) returns (text: Option<string>)
    ensures text == ControlPlaneText(cidr)
  {
    var addr := ParseIP(TrimBlockSuffix(cidr));
    if addr == null {
      return None;
    }
    addr[15] := (addr[15] as int + 1) % 256;
    text := Some(Text(Address(addr[12], addr[13], addr[14], addr[15])));
  }
}

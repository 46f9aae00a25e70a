/**
 Endpoint addresses as net.ParseIP and To4 read them: dotted quads, and IPv6 text that stands for an
 IPv4 address. Either way the canonical form is the dotted quad.
 */
module Addresses {
  import opened Wrappers
  import Text

  type U16 = x: nat | x < 0x1_0000

  predicate Octet(o: string) {
    && 1 <= |o| <= 3 && Text.AllDigits(o)
    && (|o| == 1 || o[0] != '0')
    && (|o| == 3 ==> 100 * Text.DigitValue(o[0]) + 10 * Text.DigitValue(o[1]) + Text.DigitValue(o[2]) <= 255)
  }

  function OctetValue(o: string): (r: nat)
    requires Octet(o)
    ensures r < 256
  {
    if |o| == 1 then Text.DigitValue(o[0])
    else if |o| == 2 then 10 * Text.DigitValue(o[0]) + Text.DigitValue(o[1])
    else 100 * Text.DigitValue(o[0]) + 10 * Text.DigitValue(o[1]) + Text.DigitValue(o[2])
  }

  function Digit(d: nat): char
    requires d < 10
  {
    ('0' as int + d) as char
  }

  /** The decimal form of an octet. */
  function OctetText(n: nat): (r: string)
    requires n < 256
    ensures Octet(r)
  {
    if n < 10 then [Digit(n)]
    else if n < 100 then [Digit(n / 10), Digit(n % 10)]
    else [Digit(n / 100), Digit(n / 10 % 10), Digit(n % 10)]
  }

  predicate FourOctets(parts: seq<string>) {
    |parts| == 4 && Octet(parts[0]) && Octet(parts[1]) && Octet(parts[2]) && Octet(parts[3])
  }

  predicate DottedQuad(s: string) {
    FourOctets(Text.Split(s, '.'))
  }

  // ---------------------------------------------------------------- IPv6 text

  predicate HexDigit(c: char) {
    '0' <= c <= '9' || 'a' <= c <= 'f' || 'A' <= c <= 'F'
  }

  function HexValue(c: char): (r: nat)
    requires HexDigit(c)
    ensures r < 16
  {
    if '0' <= c <= '9' then c as int - '0' as int
    else if 'a' <= c <= 'f' then c as int - 'a' as int + 10
    else c as int - 'A' as int + 10
  }

  predicate HexGroup(s: string) {
    1 <= |s| <= 4 && forall i :: 0 <= i < |s| ==> HexDigit(s[i])
  }

  function GroupValue(s: string): U16
    requires HexGroup(s)
  {
    var d := seq(|s|, i requires 0 <= i < |s| => HexValue(s[i]));
    if |d| == 1 then d[0]
    else if |d| == 2 then 16 * d[0] + d[1]
    else if |d| == 3 then 256 * d[0] + 16 * d[1] + d[2]
    else 4096 * d[0] + 256 * d[1] + 16 * d[2] + d[3]
  }

  /** A trailing dotted quad stands for two groups. */
  function QuadGroups(s: string): seq<U16>
    requires DottedQuad(s)
  {
    var o := Text.Split(s, '.');
    [GroupOf(o[0], o[1]), GroupOf(o[2], o[3])]
  }

  function GroupOf(a: string, b: string): U16
    requires Octet(a) && Octet(b)
  {
    256 * OctetValue(a) + OctetValue(b)
  }

  /** The groups of colon-separated fields, the last of which may be a dotted quad where that is allowed. */
  function Groups(fields: seq<string>, quad: bool): Option<seq<U16>> {
    if fields == [] then Some([])
    else if quad && |fields| == 1 && DottedQuad(fields[0]) then Some(QuadGroups(fields[0]))
    else if !HexGroup(fields[0]) then None
    else
      var rest := Groups(fields[1..], quad);
      if rest.None? then None else Some([GroupValue(fields[0])] + rest.value)
  }

  function Fields(s: string): seq<string> {
    if s == "" then [] else Text.Split(s, ':')
  }

  /** Where the first "::" is. */
  function Ellipsis(s: string): (r: Option<nat>)
    ensures r.Some? ==> r.value + 2 <= |s| && s[r.value] == ':' && s[r.value + 1] == ':'
  {
    if |s| < 2 then None
    else if s[0] == ':' && s[1] == ':' then Some(0)
    else
      var rest := Ellipsis(s[1..]);
      if rest.None? then None else Some(rest.value + 1)
  }

  /** Eight groups; "::" stands for at least one of them. */
  function ParseIPv6(s: string): Option<seq<U16>> {
    var at := Ellipsis(s);
    if at.None? then
      var all := Groups(Fields(s), true);
      if all.Some? && |all.value| == 8 then all else None
    else
      var left, right := Groups(Fields(s[..at.value]), false), Groups(Fields(s[at.value + 2..]), true);
      if left.None? || right.None? || |left.value| + |right.value| >= 8 then None
      else Some(left.value + seq(8 - |left.value| - |right.value|, _ => 0) + right.value)
  }

  /** An IPv6 address that stands for an IPv4 one. */
  predicate MapsIPv4(groups: seq<U16>) {
    |groups| == 8 && groups[..5] == [0, 0, 0, 0, 0] && groups[5] == 0xffff
  }

  function QuadText(hi: U16, lo: U16): string {
    OctetText(hi / 256) + "." + (OctetText(hi % 256) + "." + (OctetText(lo / 256) + "." + OctetText(lo % 256)))
  }

  /** net.ParseIP(strings.TrimSpace(raw)).To4().String(). */
  function ParseIPv4(raw: string): Option<string> {
    var s := Text.Trim(raw);
    if DottedQuad(s) then Some(s)
    else
      var groups := ParseIPv6(s);
      if groups.Some? && MapsIPv4(groups.value) then Some(QuadText(groups.value[6], groups.value[7])) else None
  }

  // ---------------------------------------------------------------- canonical forms

  lemma QuadTextSplits(hi: U16, lo: U16)
    ensures Text.Split(QuadText(hi, lo), '.')
      == [OctetText(hi / 256), OctetText(hi % 256), OctetText(lo / 256), OctetText(lo % 256)]
  {
    var a, b, c, d := OctetText(hi / 256), OctetText(hi % 256), OctetText(lo / 256), OctetText(lo % 256);
    Text.SplitNone(d, '.');
    Text.SplitFirst(c, d, '.');
    Text.SplitFirst(b, c + "." + d, '.');
    Text.SplitFirst(a, b + "." + (c + "." + d), '.');
  }

  lemma OctetTrimmed(s: string, a: string, m: string, d: string)
    requires s == a + m + d && Octet(a) && Octet(d)
    ensures Text.Trim(s) == s
  {
    assert s[0] == a[0] && s[|s| - 1] == d[|d| - 1];
    Text.TrimTrims(s);
  }

  lemma QuadTextCanonical(hi: U16, lo: U16)
    ensures ParseIPv4(QuadText(hi, lo)) == Some(QuadText(hi, lo))
  {
    var a, b, c, d := OctetText(hi / 256), OctetText(hi % 256), OctetText(lo / 256), OctetText(lo % 256);
    var m := "." + (b + "." + (c + "."));
    assert QuadText(hi, lo) == a + m + d;
    OctetTrimmed(QuadText(hi, lo), a, m, d);
    QuadTextSplits(hi, lo);
  }

  /** What parsing gives is canonical: it parses to itself. */
  lemma ParseCanonical(raw: string)
    ensures ParseIPv4(raw).Some? ==> ParseIPv4(ParseIPv4(raw).value) == ParseIPv4(raw)
  {
    var s := Text.Trim(raw);
    if DottedQuad(s) {
      Text.TrimTrims(raw);
    } else if ParseIPv4(raw).Some? {
      var groups := ParseIPv6(s).value;
      QuadTextCanonical(groups[6], groups[7]);
    }
  }

  // ---------------------------------------------------------------- mapped text

  lemma DecimalDigits(a: nat, b: nat, c: nat)
    requires a < 10 && b < 10 && c < 10
    ensures var n := 100 * a + 10 * b + c; n / 100 == a && n / 10 == 10 * a + b && n % 10 == c
    ensures (10 * a + b) % 10 == b && (10 * a + b) / 10 == a
  {
  }

  lemma DigitReprints(c: char)
    requires Text.IsDigit(c)
    ensures Digit(Text.DigitValue(c)) == c
  {
  }

  lemma OctetReprints(o: string)
    requires Octet(o)
    ensures OctetText(OctetValue(o)) == o
  {
    DigitReprints(o[0]);
    if |o| > 1 { DigitReprints(o[1]); }
    if |o| == 2 {
      DecimalDigits(0, Text.DigitValue(o[0]), Text.DigitValue(o[1]));
    } else if |o| == 3 {
      DigitReprints(o[2]);
      DecimalDigits(Text.DigitValue(o[0]), Text.DigitValue(o[1]), Text.DigitValue(o[2]));
    }
  }

  /** A dotted quad is its octets joined by dots. */
  lemma QuadJoins(s: string)
    requires DottedQuad(s)
    ensures var o := Text.Split(s, '.'); s == o[0] + "." + (o[1] + "." + (o[2] + "." + o[3]))
  {
    var o := Text.Split(s, '.');
    Text.SplitJoins(s, '.');
    assert o[1..][1..] == [o[2], o[3]] && o[1..][0] == o[1] && [o[2], o[3]][1..] == [o[3]];
    assert Text.Joined([o[2], o[3]], '.') == o[2] + "." + o[3];
    assert Text.Joined(o[1..], '.') == o[1] + "." + (o[2] + "." + o[3]);
  }

  /** It is the text of its groups. */
  lemma QuadReprints(s: string)
    requires DottedQuad(s)
    ensures QuadText(QuadGroups(s)[0], QuadGroups(s)[1]) == s
  {
    QuadJoins(s);
    PartsReprint(Text.Split(s, '.'));
  }

  lemma PartsReprint(o: seq<string>)
    requires FourOctets(o)
    ensures QuadText(GroupOf(o[0], o[1]), GroupOf(o[2], o[3])) == o[0] + "." + (o[1] + "." + (o[2] + "." + o[3]))
  {
    OctetsReprint(o[0], o[1], o[2], o[3]);
  }

  lemma OctetsReprint(a: string, b: string, c: string, d: string)
    requires Octet(a) && Octet(b) && Octet(c) && Octet(d)
    ensures QuadText(GroupOf(a, b), GroupOf(c, d)) == a + "." + (b + "." + (c + "." + d))
  {
    GroupReprints(a, b);
    GroupReprints(c, d);
  }

  lemma GroupReprints(a: string, b: string)
    requires Octet(a) && Octet(b)
    ensures OctetText(GroupOf(a, b) / 256) == a && OctetText(GroupOf(a, b) % 256) == b
  {
    BytesOf(OctetValue(a), OctetValue(b));
    OctetReprints(a);
    OctetReprints(b);
  }

  lemma BytesOf(x: nat, y: nat)
    requires x < 256 && y < 256
    ensures (256 * x + y) / 256 == x && (256 * x + y) % 256 == y
  {
  }

  lemma ColonlessIsNoIPv6(s: string)
    requires ':' !in s
    ensures ParseIPv6(s).None?
  {
    if s != "" { Text.SplitNone(s, ':'); }
    assert Ellipsis(s).None?;
    var fields := Fields(s);
    if s != "" {
      assert fields == [s] && fields[1..] == [];
      assert Groups(fields[1..], true) == Some([]);
    }
    assert Groups(fields, true).Some? ==> |Groups(fields, true).value| <= 2;
  }

  /** Text without colons is read exactly if it is, but for spaces, four decimal octets with dots between them. */
  lemma QuadIff(raw: string)
    requires ':' !in Text.Trim(raw)
    ensures ParseIPv4(raw).Some? <==> exists hi: U16, lo: U16 :: Text.Trim(raw) == QuadText(hi, lo)
    ensures ParseIPv4(raw).Some? ==> ParseIPv4(raw).value == Text.Trim(raw)
  {
    var s := Text.Trim(raw);
    ColonlessIsNoIPv6(s);
    if DottedQuad(s) {
      QuadReprints(s);
      assert s == QuadText(QuadGroups(s)[0], QuadGroups(s)[1]);
    }
    if hi: U16, lo: U16 :| s == QuadText(hi, lo) { QuadTextSplits(hi, lo); }
  }

  /** It has no colon and ends in a digit. */
  lemma QuadShape(s: string)
    requires DottedQuad(s)
    ensures s != [] && Text.IsDigit(s[|s| - 1]) && ':' !in s
  {
    var o := Text.Split(s, '.');
    QuadJoins(s);
    assert s[|s| - 1] == o[3][|o[3]| - 1];
    assert ':' !in o[0] && ':' !in o[1] && ':' !in o[2] && ':' !in o[3];
  }

  lemma NotAQuad(t: string)
    requires t != [] && t[0] == ':'
    ensures !DottedQuad(t)
  {
    assert Text.Split(t, '.')[0][0] == ':';
  }

  lemma MappedGroups(s: string)
    requires DottedQuad(s) && ':' !in s && s != []
    ensures ParseIPv6("::ffff:" + s) == Some([0, 0, 0, 0, 0, 0xffff] + QuadGroups(s))
  {
    var t, right := "::ffff:" + s, "ffff:" + s;
    assert t[0] == ':' && t[1] == ':' && t[2..] == right && t[..0] == "";
    assert right == "ffff" + [':'] + s;
    Text.SplitFirst("ffff", s, ':');
    Text.SplitNone(s, ':');
    var fields := ["ffff"] + [s];
    assert Fields(right) == fields && fields[1..] == [s];
    assert GroupValue("ffff") == 0xffff;
    assert Groups([s], true) == Some(QuadGroups(s));
    var tail := [0xffff] + QuadGroups(s);
    assert Groups(fields, true) == Some(tail);
    assert [] + seq(8 - |tail|, _ => 0) + tail == [0, 0, 0, 0, 0, 0xffff] + QuadGroups(s);
  }

  lemma ReadAsMapped(t: string, groups: seq<U16>)
    requires Text.Trim(t) == t && !DottedQuad(t) && ParseIPv6(t) == Some(groups) && MapsIPv4(groups)
    ensures ParseIPv4(t) == Some(QuadText(groups[6], groups[7]))
  {
  }

  /** Every dotted quad behind "::ffff:" is read as that quad. */
  lemma MappedParses(s: string)
    requires DottedQuad(s)
    ensures ParseIPv4("::ffff:" + s) == Some(s)
  {
    var t, quad := "::ffff:" + s, QuadGroups(s);
    var groups := [0, 0, 0, 0, 0, 0xffff] + quad;
    QuadShape(s);
    NotAQuad(t);
    MappedGroups(s);
    MappedTrimmed(s);
    assert groups[6] == quad[0] && groups[7] == quad[1] && groups[..5] == [0, 0, 0, 0, 0];
    ReadAsMapped(t, groups);
    QuadReprints(s);
  }

  lemma MappedTrimmed(s: string)
    requires s != [] && Text.IsDigit(s[|s| - 1])
    ensures Text.Trim("::ffff:" + s) == "::ffff:" + s
  {
    var t := "::ffff:" + s;
    assert t[0] == ':' && t[|t| - 1] == s[|s| - 1];
    Text.TrimTrims(t);
  }
}

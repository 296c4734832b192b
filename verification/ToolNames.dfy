/** The names connector tools are bound under: packages/agent-tools/src/connector-tools.ts. */
module ToolNames {
  import opened Prelude
  import Separators

  type Byte = n: int | 0 <= n < 256

  type Sextet = n: int | 0 <= n < 64

  // ---------------------------------------------------------------------------------------------
  // Unpadded base64url, section 5 of RFC 4648

  function Digit(v: Sextet): char {
    if v < 26 then 'A' + v as char
    else if v < 52 then 'a' + (v - 26) as char
    else if v < 62 then '0' + (v - 52) as char
    else if v == 62 then '-' else '_'
  }

  /** The value of a base64url digit; other characters read as zero. */
  function DigitValue(c: char): Sextet {
    if 'A' <= c <= 'Z' then (c - 'A') as int
    else if 'a' <= c <= 'z' then (c - 'a') as int + 26
    else if '0' <= c <= '9' then (c - '0') as int + 52
    else if c == '-' then 62 else if c == '_' then 63 else 0
  }

  function Encode(bytes: seq<Byte>): string {
    match |bytes|
    case 0 => ""
    case 1 => [Digit(bytes[0] / 4), Digit(bytes[0] % 4 * 16)]
    case 2 => [Digit(bytes[0] / 4), Digit(bytes[0] % 4 * 16 + bytes[1] / 16), Digit(bytes[1] % 16 * 4)]
    case _ =>
      [Digit(bytes[0] / 4), Digit(bytes[0] % 4 * 16 + bytes[1] / 16),
       Digit(bytes[1] % 16 * 4 + bytes[2] / 64), Digit(bytes[2] % 64)]
      + Encode(bytes[3..])
  }

  function Decode(s: string): seq<Byte> {
    if |s| < 2 then []
    else
      var a, b := DigitValue(s[0]), DigitValue(s[1]);
      if |s| == 2 then [a * 4 + b / 16]
      else
        var c := DigitValue(s[2]);
        if |s| == 3 then [a * 4 + b / 16, b % 16 * 16 + c / 4]
        else [a * 4 + b / 16, b % 16 * 16 + c / 4, c % 4 * 64 + DigitValue(s[3])] + Decode(s[4..])
  }

  lemma DigitRoundTrip(v: Sextet)
    ensures DigitValue(Digit(v)) == v
  {
  }

  lemma GroupRoundTrip(a: Byte, b: Byte, c: Byte)
    ensures a / 4 * 4 + (a % 4 * 16 + b / 16) / 16 == a
    ensures (a % 4 * 16 + b / 16) % 16 * 16 + (b % 16 * 4 + c / 64) / 4 == b
    ensures (b % 16 * 4 + c / 64) % 4 * 64 + c % 64 == c
  {
  }

  lemma {:induction false} DecodeEncode(bytes: seq<Byte>)
    ensures Decode(Encode(bytes)) == bytes
  {
    hide Digit, DigitValue;
    if |bytes| > 2 {
      DecodeEncode(bytes[3..]);
      var s := Encode(bytes);
      assert s[4..] == Encode(bytes[3..]);
      DigitRoundTrip(bytes[0] / 4);
      DigitRoundTrip(bytes[0] % 4 * 16 + bytes[1] / 16);
      DigitRoundTrip(bytes[1] % 16 * 4 + bytes[2] / 64);
      DigitRoundTrip(bytes[2] % 64);
      GroupRoundTrip(bytes[0], bytes[1], bytes[2]);
      assert Decode(s) == [bytes[0], bytes[1], bytes[2]] + Decode(s[4..]);
    } else if |bytes| == 2 {
      DigitRoundTrip(bytes[0] / 4);
      DigitRoundTrip(bytes[0] % 4 * 16 + bytes[1] / 16);
      DigitRoundTrip(bytes[1] % 16 * 4);
    } else if |bytes| == 1 {
      DigitRoundTrip(bytes[0] / 4);
      DigitRoundTrip(bytes[0] % 4 * 16);
    }
  }

  /** Section 10 of RFC 4648, and the two digits in which the URL-safe alphabet differs. */
  lemma KnownEncodings()
    ensures Encode([0x66]) == "Zg" && Encode([0x66, 0x6f]) == "Zm8" && Encode([0x66, 0x6f, 0x6f]) == "Zm9v"
    ensures Encode([0xfb, 0xff, 0xbf]) == "-_-_"
  {
  }

  lemma {:induction false} EncodedLength(bytes: seq<Byte>)
    ensures |Encode(bytes)| == (4 * |bytes| + 2) / 3
  {
    if |bytes| > 2 {
      EncodedLength(bytes[3..]);
    }
  }

  // ---------------------------------------------------------------------------------------------
  // Connector ids

  predicate IsHex(c: char) {
    '0' <= c <= '9' || 'a' <= c <= 'f' || 'A' <= c <= 'F'
  }

  predicate IsUuid(id: string) {
    && |id| == 36
    && forall i | 0 <= i < 36 :: if i in {8, 13, 18, 23} then id[i] == '-' else IsHex(id[i])
  }

  function Lower(c: char): char {
    if 'A' <= c <= 'Z' then c - 'A' + 'a' else c
  }

  predicate SameIgnoringCase(a: string, b: string) {
    |a| == |b| && forall i | 0 <= i < |a| :: Lower(a[i]) == Lower(b[i])
  }

  function HexValue(c: char): (v: int)
    requires IsHex(c)
    ensures 0 <= v < 16
  {
    if c <= '9' then (c - '0') as int else (Lower(c) - 'a') as int + 10
  }

  function Dashless(s: string): string {
    if s == "" then "" else (if s[0] == '-' then "" else [s[0]]) + Dashless(s[1..])
  }

  predicate AllHex(s: string) {
    forall i | 0 <= i < |s| :: IsHex(s[i])
  }

  function FromHex(s: string): seq<Byte>
    requires AllHex(s)
  {
    if |s| < 2 then [] else [HexValue(s[0]) * 16 + HexValue(s[1])] + FromHex(s[2..])
  }

  /** Sixteen lower-case digits, the more significant half of a byte first, as RFC 9562 writes a UUID. */
  function HexDigit(v: int): char
    requires 0 <= v < 16
  {
    "0123456789abcdef"[v]
  }

  function ToHex(bytes: seq<Byte>): string {
    if bytes == [] then "" else [HexDigit(bytes[0] / 16), HexDigit(bytes[0] % 16)] + ToHex(bytes[1..])
  }

  function Lowered(s: string): (r: string)
    ensures |r| == |s| && forall i | 0 <= i < |s| :: r[i] == Lower(s[i])
  {
    seq(|s|, i requires 0 <= i < |s| => Lower(s[i]))
  }

  lemma HexRoundTrip(c: char)
    requires IsHex(c)
    ensures HexDigit(HexValue(c)) == Lower(c)
  {
  }

  /** Reading hexadecimal and writing it again gives the lower-case digits. */
  lemma {:induction false} ToHexFromHex(s: string)
    requires AllHex(s) && |s| % 2 == 0
    ensures ToHex(FromHex(s)) == Lowered(s)
  {
    if s != "" {
      ToHexFromHex(s[2..]);
      HexRoundTrip(s[0]);
      HexRoundTrip(s[1]);
      var b := FromHex(s)[0];
      assert b / 16 == HexValue(s[0]) && b % 16 == HexValue(s[1]);
      assert FromHex(s)[1..] == FromHex(s[2..]);
      assert Lowered(s) == [Lower(s[0]), Lower(s[1])] + Lowered(s[2..]);
    }
  }

  /** `None` stands for the error an invalid id raises. */
  function ConnectorToolKey(id: string): Option<string> {
    if !IsUuid(id) then None
    else
      DashlessUuid(id);
      Some(Encode(FromHex(Dashless(id))))
  }

  lemma {:induction false} DashlessOfSum(a: string, b: string)
    ensures Dashless(a + b) == Dashless(a) + Dashless(b)
  {
    if a == "" {
      assert a + b == b;
    } else {
      var head := if a[0] == '-' then "" else [a[0]];
      DashlessOfSum(a[1..], b);
      assert (a + b)[0] == a[0] && (a + b)[1..] == a[1..] + b;
      calc {
        Dashless(a + b);
        head + Dashless(a[1..] + b);
        head + (Dashless(a[1..]) + Dashless(b));
        (head + Dashless(a[1..])) + Dashless(b);
      }
    }
  }

  lemma {:induction false} DashlessHex(s: string)
    requires AllHex(s)
    ensures Dashless(s) == s
  {
    if s != "" {
      DashlessHex(s[1..]);
    }
  }

  lemma UuidParts(id: string)
    requires IsUuid(id)
    ensures AllHex(id[..8]) && AllHex(id[9..13]) && AllHex(id[14..18]) && AllHex(id[19..23]) && AllHex(id[24..])
    ensures id[8] == id[13] == id[18] == id[23] == '-'
    ensures AllHex(id[..8] + id[9..13] + id[14..18] + id[19..23] + id[24..])
  {
  }

  lemma DashlessUuid(id: string)
    requires IsUuid(id)
    ensures Dashless(id) == id[..8] + id[9..13] + id[14..18] + id[19..23] + id[24..]
    ensures |Dashless(id)| == 32 && AllHex(Dashless(id))
  {
    UuidParts(id);
    hide AllHex;
    assert id == id[..8] + (id[8..9] + (id[9..13] + (id[13..14] + (id[14..18] + (id[18..19] + (id[19..23] + (id[23..24] + id[24..])))))));
    DashPart(id[..8], id[8..9] + (id[9..13] + (id[13..14] + (id[14..18] + (id[18..19] + (id[19..23] + (id[23..24] + id[24..])))))));
    DashPart(id[9..13], id[13..14] + (id[14..18] + (id[18..19] + (id[19..23] + (id[23..24] + id[24..])))));
    DashPart(id[14..18], id[18..19] + (id[19..23] + (id[23..24] + id[24..])));
    DashPart(id[19..23], id[23..24] + id[24..]);
    DashlessHex(id[24..]);
  }

  lemma DashPart(part: string, rest: string)
    requires AllHex(part) && |rest| > 0 && rest[0] == '-'
    ensures Dashless(part + rest) == part + Dashless(rest[1..])
  {
    DashlessOfSum(part, rest);
    DashlessHex(part);
  }

  lemma {:induction false} FromHexLength(s: string)
    requires AllHex(s) && |s| % 2 == 0
    ensures |FromHex(s)| == |s| / 2
  {
    if |s| >= 2 {
      FromHexLength(s[2..]);
    }
  }

  lemma HexValueIgnoresCase(c: char, d: char)
    requires IsHex(c) && IsHex(d)
    ensures HexValue(c) == HexValue(d) <==> Lower(c) == Lower(d)
  {
  }

  lemma {:induction false} FromHexIgnoresCase(s: string, t: string)
    requires AllHex(s) && AllHex(t) && |s| == |t| && |s| % 2 == 0
    ensures FromHex(s) == FromHex(t) <==> SameIgnoringCase(s, t)
  {
    if |s| >= 2 {
      FromHexIgnoresCase(s[2..], t[2..]);
      HexValueIgnoresCase(s[0], t[0]);
      HexValueIgnoresCase(s[1], t[1]);
      assert FromHex(s)[1..] == FromHex(s[2..]) && FromHex(t)[1..] == FromHex(t[2..]);
      assert FromHex(s) == FromHex(t) <==> FromHex(s)[0] == FromHex(t)[0] && FromHex(s[2..]) == FromHex(t[2..]);
      if SameIgnoringCase(s[2..], t[2..]) && Lower(s[0]) == Lower(t[0]) && Lower(s[1]) == Lower(t[1]) {
        forall i | 0 <= i < |s| ensures Lower(s[i]) == Lower(t[i]) {
          assert i >= 2 ==> s[i] == s[2..][i - 2] && t[i] == t[2..][i - 2];
        }
      }
    }
  }

  lemma DashlessIgnoresCase(id: string, other: string)
    requires IsUuid(id) && IsUuid(other)
    ensures |Dashless(id)| == |Dashless(other)|
    ensures SameIgnoringCase(Dashless(id), Dashless(other)) <==> SameIgnoringCase(id, other)
  {
    DashlessUuid(id);
    DashlessUuid(other);
    hide Dashless;
    var s, t := Dashless(id), Dashless(other);
    forall i | 0 <= i < 36 && i !in {8, 13, 18, 23} ensures s[Position(i)] == id[i] && t[Position(i)] == other[i] {
    }
    if SameIgnoringCase(s, t) {
      forall i | 0 <= i < 36 ensures Lower(id[i]) == Lower(other[i]) {
        if i !in {8, 13, 18, 23} {
          assert Lower(s[Position(i)]) == Lower(t[Position(i)]);
        }
      }
    }
    if SameIgnoringCase(id, other) {
      forall j | 0 <= j < 32 ensures Lower(s[j]) == Lower(t[j]) {
        var i := if j < 8 then j else if j < 12 then j + 1 else if j < 16 then j + 2 else if j < 20 then j + 3 else j + 4;
        assert Position(i) == j;
      }
    }
  }

  /** Where a digit of a UUID ends up once the dashes are gone. */
  function Position(i: int): (p: int)
    ensures 0 <= i < 36 && i !in {8, 13, 18, 23} ==> 0 <= p < 32
  {
    if i < 9 then i else if i < 14 then i - 1 else if i < 19 then i - 2 else if i < 24 then i - 3 else i - 4
  }

  /** The digits of a UUID in lower case, without its dashes. */
  function Digits(id: string): string
    requires IsUuid(id)
  {
    Lowered(id[..8]) + Lowered(id[9..13]) + Lowered(id[14..18]) + Lowered(id[19..23]) + Lowered(id[24..])
  }

  /** The key is 22 digits long and decodes to the sixteen bytes that the id writes in hexadecimal. */
  lemma KeyHoldsId(id: string)
    requires IsUuid(id)
    ensures ConnectorToolKey(id).Some? && ToHex(Decode(ConnectorToolKey(id).value)) == Digits(id)
    ensures ConnectorToolKey(id).Some? && |ConnectorToolKey(id).value| == 22
    ensures AllHex(Dashless(id)) && Decode(ConnectorToolKey(id).value) == FromHex(Dashless(id))
    ensures |Decode(ConnectorToolKey(id).value)| == 16
  {
    DashlessUuid(id);
    hide Encode, Decode, FromHex, ToHex, Dashless, Digits, IsUuid;
    DigitsWithoutDashes(id);
    FromHexLength(Dashless(id));
    DecodeEncode(FromHex(Dashless(id)));
    EncodedLength(FromHex(Dashless(id)));
    ToHexFromHex(Dashless(id));
  }

  lemma DigitsWithoutDashes(id: string)
    requires IsUuid(id)
    ensures Lowered(Dashless(id)) == Digits(id)
  {
    DashlessUuid(id);
    hide Dashless, AllHex, IsHex;
    assert Lowered(id[..8] + id[9..13] + id[14..18] + id[19..23] + id[24..]) == Digits(id);
  }

  /** Ids get the same key exactly if they are the same UUID, written in any case. */
  lemma KeyNamesId(id: string, other: string)
    requires IsUuid(id) && IsUuid(other)
    ensures ConnectorToolKey(id) == ConnectorToolKey(other) <==> SameIgnoringCase(id, other)
  {
    DashlessUuid(id);
    DashlessUuid(other);
    hide Encode, Decode, FromHex, Dashless, IsUuid;
    DashlessIgnoresCase(id, other);
    FromHexIgnoresCase(Dashless(id), Dashless(other));
    DecodeEncode(FromHex(Dashless(id)));
    DecodeEncode(FromHex(Dashless(other)));
  }

  // ---------------------------------------------------------------------------------------------
  // Tool names

  function ToolName(kind: string, key: string, tool: string): string {
    kind + "_" + key + "_" + tool
  }

  /** A name built from a kind without underscore and a 22-digit key has one reading. */
  lemma NameHasOneReading(kind: string, key: string, tool: string, kind': string, key': string, tool': string)
    requires '_' !in kind && '_' !in kind' && |key| == |key'|
    requires ToolName(kind, key, tool) == ToolName(kind', key', tool')
    ensures kind == kind' && key == key' && tool == tool'
  {
    var rest, rest' := key + "_" + tool, key' + "_" + tool';
    assert ToolName(kind, key, tool) == kind + ['_'] + rest;
    assert ToolName(kind', key', tool') == kind' + ['_'] + rest';
    Separators.JoinIsInjective('_', kind, rest, kind', rest');
    assert key == rest[..|key|] && key' == rest'[..|key|];
    assert tool == rest[|key| + 1..] && tool' == rest'[|key| + 1..];
  }

  /** Tools of connectors with different ids never share a name. */
  lemma NamesAreDistinct(kind: string, id: string, tool: string, kind': string, id': string, tool': string)
    requires IsUuid(id) && IsUuid(id') && '_' !in kind && '_' !in kind'
    ensures ToolName(kind, ConnectorToolKey(id).value, tool) == ToolName(kind', ConnectorToolKey(id').value, tool') <==>
              kind == kind' && SameIgnoringCase(id, id') && tool == tool'
  {
    KeyHoldsId(id);
    KeyHoldsId(id');
    KeyNamesId(id, id');
    if ToolName(kind, ConnectorToolKey(id).value, tool) == ToolName(kind', ConnectorToolKey(id').value, tool') {
      NameHasOneReading(kind, ConnectorToolKey(id).value, tool, kind', ConnectorToolKey(id').value, tool');
    }
  }

  /** A kind with an underscore could swallow the key of another connector. */
  lemma UnderscoreBreaksReading(kind: string, id: string, id': string, tool: string)
    requires IsUuid(id) && IsUuid(id') && !SameIgnoringCase(id, id')
    ensures var key, key' := ConnectorToolKey(id).value, ConnectorToolKey(id').value;
            && key != key'
            && ToolName(kind, key, key' + "_" + tool) == ToolName(kind + "_" + key, key', tool)
  {
    KeyNamesId(id, id');
  }

  datatype Bound = InvalidId | DuplicateTool(name: string) | Tools(names: seq<string>)

  /** Binds one connector's tools, or fails on a malformed id or the first repeated name. */
  method ConnectorTools(kind: string, id: string, tools: seq<string>) returns (bound: Bound)
    ensures bound.InvalidId? <==> !IsUuid(id)
    ensures bound.Tools? <==> IsUuid(id) && Distinct(tools)
    ensures bound.Tools? ==> |bound.names| == |tools| && Distinct(bound.names)
    ensures bound.Tools? ==>
              forall i | 0 <= i < |tools| :: bound.names[i] == ToolName(kind, ConnectorToolKey(id).value, tools[i])
    ensures bound.DuplicateTool? ==>
              exists j | 0 <= j < |tools| :: tools[j] == bound.name && bound.name in tools[..j] && Distinct(tools[..j])
  {
    if !IsUuid(id) {
      return InvalidId;
    }
    var key := ConnectorToolKey(id).value;
    var seen: set<string>, names := {}, [];
    for i := 0 to |tools|
      invariant |names| == i && Distinct(tools[..i])
      invariant forall name :: name in seen <==> name in tools[..i]
      invariant forall j | 0 <= j < i :: names[j] == ToolName(kind, key, tools[j])
    {
      if tools[i] in seen {
        assert !Distinct(tools);
        return DuplicateTool(tools[i]);
      }
      assert tools[..i + 1] == tools[..i] + [tools[i]];
      seen := seen + {tools[i]};
      names := names + [ToolName(kind, key, tools[i])];
    }
    assert tools[..|tools|] == tools;
    forall i, j | 0 <= i < j < |names| ensures names[i] != names[j] {
      SamePrefix(kind, key, tools[i], tools[j]);
    }
    bound := Tools(names);
  }

  lemma SamePrefix(kind: string, key: string, tool: string, tool': string)
    ensures ToolName(kind, key, tool) == ToolName(kind, key, tool') <==> tool == tool'
  {
    var n := |kind| + |key| + 2;
    assert ToolName(kind, key, tool)[n..] == tool && ToolName(kind, key, tool')[n..] == tool';
  }
}

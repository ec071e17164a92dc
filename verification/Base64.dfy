/**
 The base 64 encoding of section 4 of RFC 4648, and the length gate the
 request normaliser applies before it decodes (src/cyrene_exchange/protocol.py).
 */
module Base64 {
  import opened Prelude
  import opened Values

  type Sextet = v: int | 0 <= v < 64

  /** The alphabet of table 1. */
  function Digit(v: Sextet): char {
    if v < 26 then (('A' as int) + v) as char
    else if v < 52 then (('a' as int) + v - 26) as char
    else if v < 62 then (('0' as int) + v - 52) as char
    else if v == 62 then '+'
    else '/'
  }

  predicate IsDigit(c: char) {
    'A' <= c <= 'Z' || 'a' <= c <= 'z' || '0' <= c <= '9' || c == '+' || c == '/'
  }

  function ValueOf(c: char): Sextet
    requires IsDigit(c)
  {
    if 'A' <= c <= 'Z' then (c as int) - ('A' as int)
    else if 'a' <= c <= 'z' then (c as int) - ('a' as int) + 26
    else if '0' <= c <= '9' then (c as int) - ('0' as int) + 52
    else if c == '+' then 62
    else 63
  }

  const PAD := '='

  /** The four digits of three bytes. */
  function Quad(a: Byte, b: Byte, c: Byte): (r: string)
    ensures |r| == 4
  {
    [Digit(a / 4), Digit(a % 4 * 16 + b / 16), Digit(b % 16 * 4 + c / 64), Digit(c % 64)]
  }

  function Encode(data: seq<Byte>): string {
    if data == [] then ""
    else if |data| == 1 then Quad(data[0], 0, 0)[..2] + [PAD, PAD]
    else if |data| == 2 then Quad(data[0], data[1], 0)[..3] + [PAD]
    else Quad(data[0], data[1], data[2]) + Encode(data[3..])
  }

  /** The three bytes of four digits. */
  function Bytes3(s: string): (r: seq<Byte>)
    requires |s| == 4 && forall i :: 0 <= i < 4 ==> IsDigit(s[i])
    ensures |r| == 3
  {
    var p: int, q: int, u: int, w: int := ValueOf(s[0]), ValueOf(s[1]), ValueOf(s[2]), ValueOf(s[3]);
    [p * 4 + q / 16, q % 16 * 16 + u / 4, u % 4 * 64 + w]
  }

  /** The bytes of one group of four characters; only the last group may be padded. */
  function Group(s: string, last: bool): (r: Option<seq<Byte>>)
    requires |s| == 4
    ensures r.Some? ==> 1 <= |r.value| <= 3 && (!last ==> |r.value| == 3)
  {
    if !IsDigit(s[0]) || !IsDigit(s[1]) then None
    else if IsDigit(s[2]) && IsDigit(s[3]) then Some(Bytes3(s))
    else if last && IsDigit(s[2]) && s[3] == PAD then Some(Bytes3(s[..3] + "A")[..2])
    else if last && s[2] == PAD && s[3] == PAD then Some(Bytes3(s[..2] + "AA")[..1])
    else None
  }

  function Decode(s: string): Option<seq<Byte>> {
    if s == "" then Some([])
    else if |s| < 4 then None
    else
      var head := Group(s[..4], |s| == 4);
      if head.None? then None
      else
        var tail := Decode(s[4..]);
        if tail.None? then None else Some(head.value + tail.value)
  }

  lemma {:induction false} DigitRoundTrip(v: Sextet)
    ensures IsDigit(Digit(v)) && ValueOf(Digit(v)) == v
  {
  }

  lemma {:induction false} Repack(a: int, b: int, c: int)
    requires 0 <= a < 256 && 0 <= b < 256 && 0 <= c < 256
    ensures a / 4 * 4 + (a % 4 * 16 + b / 16) / 16 == a
    ensures (a % 4 * 16 + b / 16) % 16 * 16 + (b % 16 * 4 + c / 64) / 4 == b
    ensures (b % 16 * 4 + c / 64) % 4 * 64 + c % 64 == c
  {
  }

  lemma {:induction false} QuadDigits(a: Byte, b: Byte, c: Byte)
    ensures forall i :: 0 <= i < 4 ==> IsDigit(Quad(a, b, c)[i])
    ensures Bytes3(Quad(a, b, c)) == [a, b, c]
  {
    var s := Quad(a, b, c);
    DigitRoundTrip(a / 4);
    DigitRoundTrip(a % 4 * 16 + b / 16);
    DigitRoundTrip(b % 16 * 4 + c / 64);
    DigitRoundTrip(c % 64);
    assert IsDigit(s[0]) && IsDigit(s[1]) && IsDigit(s[2]) && IsDigit(s[3]);
    Repack(a, b, c);
  }

  /** A group that may be the last one is decoded first, whatever follows it. */
  lemma {:induction false} DecodeGroup(g: string, rest: string)
    requires |g| == 4 && Group(g, rest == "").Some? && Decode(rest).Some?
    ensures Decode(g + rest) == Some(Group(g, rest == "").value + Decode(rest).value)
  {
    assert (g + rest)[..4] == g && (g + rest)[4..] == rest;
  }

  lemma {:induction false} LastGroup(g: string, data: seq<Byte>)
    requires |g| == 4 && Group(g, true) == Some(data)
    ensures Decode(g) == Some(data)
  {
    DecodeGroup(g, "");
    assert g + "" == g;
    assert data + Decode("").value == data;
  }

  lemma {:induction false} OneByte(a: Byte)
    ensures Decode(Encode([a])) == Some([a])
  {
    QuadDigits(a, 0, 0);
    var s := Encode([a]);
    assert s[..2] + "AA" == Quad(a, 0, 0);
    assert Bytes3(s[..2] + "AA")[..1] == [a];
    LastGroup(s, [a]);
  }

  lemma {:induction false} TwoBytes(a: Byte, b: Byte)
    ensures Decode(Encode([a, b])) == Some([a, b])
  {
    QuadDigits(a, b, 0);
    var s := Encode([a, b]);
    assert s[..3] + "A" == Quad(a, b, 0);
    assert IsDigit(s[2]) && s[3] == PAD;
    assert Bytes3(s[..3] + "A")[..2] == [a, b];
    LastGroup(s, [a, b]);
  }

  lemma {:induction false} ThreeBytes(a: Byte, b: Byte, c: Byte, rest: seq<Byte>)
    requires Decode(Encode(rest)) == Some(rest)
    ensures Decode(Quad(a, b, c) + Encode(rest)) == Some([a, b, c] + rest)
  {
    QuadDigits(a, b, c);
    DecodeGroup(Quad(a, b, c), Encode(rest));
  }

  lemma {:induction false} ShortRoundTrip(data: seq<Byte>)
    requires |data| <= 2
    ensures Decode(Encode(data)) == Some(data)
  {
    if |data| == 1 {
      OneByte(data[0]);
      assert data == [data[0]];
    } else if |data| == 2 {
      TwoBytes(data[0], data[1]);
      assert data == [data[0], data[1]];
    }
  }

  lemma {:induction false} LongRoundTrip(data: seq<Byte>)
    requires |data| > 2 && Decode(Encode(data[3..])) == Some(data[3..])
    ensures Decode(Encode(data)) == Some(data)
  {
    ThreeBytes(data[0], data[1], data[2], data[3..]);
    assert data == [data[0], data[1], data[2]] + data[3..];
  }

  /** Decoding undoes encoding. */
  lemma {:induction false} RoundTrip(data: seq<Byte>)
    ensures Decode(Encode(data)) == Some(data)
    decreases |data|
  {
    if |data| <= 2 {
      ShortRoundTrip(data);
    } else {
      RoundTrip(data[3..]);
      LongRoundTrip(data);
    }
  }

  /** An encoding has four characters for each started group of three bytes. */
  lemma {:induction false} EncodedLength(data: seq<Byte>)
    ensures |Encode(data)| == (|data| + 2) / 3 * 4
    decreases |data|
  {
    if |data| > 2 {
      EncodedLength(data[3..]);
    }
  }

  /** How many bytes a text can stand for: three for each group, at most two fewer. */
  lemma {:induction false} DecodedLength(s: string)
    requires Decode(s).Some?
    ensures |s| % 4 == 0
    ensures |s| / 4 * 3 - 2 <= |Decode(s).value| <= |s| / 4 * 3
    ensures s == "" <==> Decode(s).value == []
    decreases |s|
  {
    if s != "" {
      DecodedLength(s[4..]);
    }
  }

  // ---- what the standard says ----------------------------------------------------------------

  /** The alphabet is that of table 1: the upper-case letters, the lower-case letters, the figures, `+` and `/`. */
  lemma {:induction false} AlphabetExactly(v: Sextet)
    ensures Digit(0) == 'A' && Digit(25) == 'Z' && Digit(26) == 'a' && Digit(51) == 'z'
    ensures Digit(52) == '0' && Digit(61) == '9' && Digit(62) == '+' && Digit(63) == '/'
    ensures v < 61 && v != 25 && v != 51 ==> Digit(v + 1) as int == Digit(v) as int + 1
  {
  }

  /** The four digits of three bytes are one number of 24 bits, written with the highest bits first. */
  lemma {:induction false} QuadIsBigEndian(a: Byte, b: Byte, c: Byte)
    ensures forall i :: 0 <= i < 4 ==> IsDigit(Quad(a, b, c)[i])
    ensures ValueOf(Quad(a, b, c)[0]) * 262144 + ValueOf(Quad(a, b, c)[1]) * 4096
            + ValueOf(Quad(a, b, c)[2]) * 64 + ValueOf(Quad(a, b, c)[3]) == a * 65536 + b * 256 + c
  {
    QuadDigits(a, b, c);
    DigitRoundTrip(a / 4);
    DigitRoundTrip(a % 4 * 16 + b / 16);
    DigitRoundTrip(b % 16 * 4 + c / 64);
    DigitRoundTrip(c % 64);
  }

  /** The text is a whole number of groups of digits, of which the last one or two may be padding. */
  predicate WellFormed(s: string) {
    && |s| % 4 == 0
    && (forall i :: 0 <= i < |s| - 2 ==> IsDigit(s[i]))
    && (s != "" ==> (IsDigit(s[|s| - 2]) && (IsDigit(s[|s| - 1]) || s[|s| - 1] == '=')) || s[|s| - 2..] == "==")
  }

  lemma {:induction false} GroupsSplit(s: string)
    requires |s| >= 4
    ensures WellFormed(s) <==>
      if |s| == 4 then Group(s, true).Some?
      else WellFormed(s[4..]) && s[4..] != "" && Group(s[..4], false).Some?
  {
    if |s| == 4 {
      assert s[2..] == "==" <==> s[2] == '=' && s[3] == '=';
    } else {
      var rest := s[4..];
      assert forall i :: 4 <= i < |s| ==> s[i] == rest[i - 4];
      assert |s| >= 6 ==> s[|s| - 2..] == rest[|rest| - 2..] || |rest| < 2;
      if WellFormed(rest) && rest != "" && Group(s[..4], false).Some? {
        forall i | 0 <= i < |s| - 2 ensures IsDigit(s[i]) {
          if i < 4 {
            assert s[..4][i] == s[i];
          }
        }
      }
    }
  }

  /** Exactly which texts decode: nothing is skipped and nothing is guessed. */
  lemma {:induction false} DecodesExactly(s: string)
    ensures Decode(s).Some? <==> WellFormed(s)
    decreases |s|
  {
    if |s| >= 4 {
      GroupsSplit(s);
      DecodesExactly(s[4..]);
      assert s[..4] == s || |s| > 4;
    }
  }

  lemma {:induction false} VectorsForFoo()
    ensures Encode([102]) == "Zg==" && Encode([102, 111]) == "Zm8=" && Encode([102, 111, 111]) == "Zm9v"
  {
    var foo: seq<Byte> := [102, 111, 111];
    assert Encode(foo) == Quad(102, 111, 111) + Encode(foo[3..]);
  }

  lemma {:induction false} VectorsForBar()
    ensures Encode([98]) == "Yg==" && Encode([98, 97]) == "YmE=" && Encode([98, 97, 114]) == "YmFy"
  {
    var bar: seq<Byte> := [98, 97, 114];
    assert Encode(bar) == Quad(98, 97, 114) + Encode(bar[3..]);
  }

  /** The test vectors of section 10 of RFC 4648. */
  lemma {:induction false} TestVectors()
    ensures Encode([102]) == "Zg==" && Encode([102, 111]) == "Zm8=" && Encode([102, 111, 111]) == "Zm9v"
    ensures Encode([102, 111, 111, 98]) == "Zm9vYg=="
    ensures Encode([102, 111, 111, 98, 97]) == "Zm9vYmE="
    ensures Encode([102, 111, 111, 98, 97, 114]) == "Zm9vYmFy"
  {
    VectorsForFoo();
    VectorsForBar();
    FooThen([98]);
    FooThen([98, 97]);
    FooThen([98, 97, 114]);
    var foo: seq<Byte> := [102, 111, 111];
    assert foo + [98] == [102, 111, 111, 98] && foo + [98, 97] == [102, 111, 111, 98, 97];
    assert foo + [98, 97, 114] == [102, 111, 111, 98, 97, 114];
    assert "Zm9v" + "Yg==" == "Zm9vYg==" && "Zm9v" + "YmE=" == "Zm9vYmE=" && "Zm9v" + "YmFy" == "Zm9vYmFy";
  }

  lemma {:induction false} FooThen(rest: seq<Byte>)
    ensures Encode([102, 111, 111] + rest) == "Zm9v" + Encode(rest)
  {
    var all: seq<Byte> := [102, 111, 111] + rest;
    assert all[3..] == rest;
    assert Encode(all) == Quad(all[0], all[1], all[2]) + Encode(rest);
    VectorsForFoo();
    assert Encode([102, 111, 111]) == Quad(102, 111, 111);
  }

  /** The longest text the gate lets through for a limit of `limit` bytes. */
  function Gate(limit: nat): nat {
    (limit + 2) / 3 * 4
  }

  /**
   The gate turns away no text whose bytes are within the limit, so checking it
   first never changes the verdict of the exact check made after decoding.
   */
  lemma {:induction false} GateIsSafe(s: string, limit: nat)
    requires Decode(s).Some? && |Decode(s).value| <= limit
    ensures |s| <= Gate(limit)
  {
    DecodedLength(s);
  }

  lemma {:induction false} FullEncodingPasses(groups: nat) returns (t: string)
    ensures |t| == groups * 4 && Decode(t).Some? && |Decode(t).value| == groups * 3
  {
    var full: seq<Byte> := seq(groups * 3, _ => 0);
    t := Encode(full);
    RoundTrip(full);
    EncodedLength(full);
    assert (groups * 3 + 2) / 3 == groups;
  }

  /** On its own the gate admits up to the limit rounded up to whole groups, and that many bytes do pass. */
  lemma {:induction false} GateIsTight(s: string, limit: nat)
    requires Decode(s).Some? && |s| <= Gate(limit)
    ensures |Decode(s).value| <= (limit + 2) / 3 * 3
    ensures exists t :: |t| <= Gate(limit) && Decode(t).Some? && |Decode(t).value| == (limit + 2) / 3 * 3
  {
    DecodedLength(s);
    var full := FullEncodingPasses((limit + 2) / 3);
    assert |full| <= Gate(limit);
  }
}

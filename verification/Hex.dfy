/** Lower-case hexadecimal (Base16, section 8 of RFC 4648): the form of stored contract ids and of the
    announcements that attestors serve. Strings are ASCII. */
module Hex {
  import opened Base

  datatype DecodeHexError = OddLength | ParseInt
  datatype HexResult = Bytes(bytes: seq<Byte>) | Failed(error: DecodeHexError)

  function LowerDigit(d: int): (c: char)
    requires 0 <= d < 16
  {
    if d < 10 then '0' + d as char else 'a' + (d - 10) as char
  }

  predicate IsLowerHex(c: char) { '0' <= c <= '9' || 'a' <= c <= 'f' }

  /** Two digits per byte, the high one first. */
  function HexByte(b: Byte): string { [LowerDigit(b / 16), LowerDigit(b % 16)] }

  function HexEncode(bytes: seq<Byte>): string {
    if bytes == [] then "" else HexByte(bytes[0]) + HexEncode(bytes[1..])
  }

  /** A digit of either case. */
  function DigitValue(c: char): (d: Option<int>)
    ensures d.Some? ==> 0 <= d.value < 16
  {
    if '0' <= c <= '9' then Some(c as int - '0' as int)
    else if 'a' <= c <= 'f' then Some(c as int - 'a' as int + 10)
    else if 'A' <= c <= 'F' then Some(c as int - 'A' as int + 10)
    else None
  }

  /** What parsing a two-character slice as a base-16 byte accepts: a leading plus sign is dropped. */
  function ParsePair(a: char, b: char): Option<Byte> {
    match (DigitValue(a), DigitValue(b))
    case (Some(h), Some(l)) => Some(16 * h + l)
    case (None, Some(l)) => if a == '+' then Some(l) else None
    case _ => None
  }

  function DecodePairs(s: string): HexResult
    requires |s| % 2 == 0
  {
    if s == "" then Bytes([])
    else
      match ParsePair(s[0], s[1])
      case None => Failed(ParseInt)
      case Some(b) =>
        match DecodePairs(s[2..])
        case Failed(e) => Failed(e)
        case Bytes(bs) => Bytes([b] + bs)
  }

  function DecodeHex(s: string): HexResult {
    if |s| % 2 != 0 then Failed(OddLength) else DecodePairs(s)
  }

  /** Decoding undoes lower-case encoding, for every byte string. */
  lemma {:induction false} DecodeEncode(bytes: seq<Byte>)
    ensures DecodeHex(HexEncode(bytes)) == Bytes(bytes)
  {
    if bytes != [] {
      DecodeEncode(bytes[1..]);
      var s := HexEncode(bytes);
      assert s[2..] == HexEncode(bytes[1..]);
      assert |s| == 2 + |HexEncode(bytes[1..])|;
    }
  }

  /** Encoding undoes decoding exactly on even-length lower-case digit strings: upper-case digits and
      plus signs are accepted but not reproduced. */
  lemma {:induction false} EncodeDecodeIff(s: string)
    ensures DecodeHex(s).Bytes? && HexEncode(DecodeHex(s).bytes) == s
       <==> |s| % 2 == 0 && forall i :: 0 <= i < |s| ==> IsLowerHex(s[i])
  {
    if |s| % 2 == 0 && s != "" {
      EncodeDecodeIff(s[2..]);
      PairIff(s[0], s[1]);
      var p, r := ParsePair(s[0], s[1]), DecodeHex(s[2..]);
      assert s == [s[0], s[1]] + s[2..];
      assert (forall i :: 0 <= i < |s| ==> IsLowerHex(s[i]))
        <==> IsLowerHex(s[0]) && IsLowerHex(s[1]) && forall i :: 0 <= i < |s[2..]| ==> IsLowerHex(s[2..][i]) by {
        if forall i :: 0 <= i < |s| ==> IsLowerHex(s[i]) {
          forall i | 0 <= i < |s[2..]| ensures IsLowerHex(s[2..][i]) { assert s[2..][i] == s[i + 2]; }
        }
        if IsLowerHex(s[0]) && IsLowerHex(s[1]) && forall i :: 0 <= i < |s[2..]| ==> IsLowerHex(s[2..][i]) {
          forall i | 0 <= i < |s| ensures IsLowerHex(s[i]) {
            if i >= 2 { assert s[i] == s[2..][i - 2]; }
          }
        }
      }
      if p.Some? && r.Bytes? {
        var e := HexEncode(DecodeHex(s).bytes);
        assert DecodeHex(s).bytes == [p.value] + r.bytes;
        assert e == HexByte(p.value) + HexEncode(r.bytes);
        assert e[2..] == HexEncode(r.bytes) && e[..2] == HexByte(p.value);
        assert s[..2] == [s[0], s[1]];
      }
    }
  }

  lemma PairIff(a: char, b: char)
    ensures ParsePair(a, b).Some? && HexByte(ParsePair(a, b).value) == [a, b] <==> IsLowerHex(a) && IsLowerHex(b)
  {
    if DigitValue(b).None? {
    } else if DigitValue(a).Some? {
      var h, l := DigitValue(a).value, DigitValue(b).value;
      SplitByte(h, l);
      DigitIff(a);
      DigitIff(b);
      assert HexByte(16 * h + l) == [LowerDigit(h), LowerDigit(l)];
      assert [LowerDigit(h), LowerDigit(l)] == [a, b] <==> LowerDigit(h) == a && LowerDigit(l) == b;
    } else if a == '+' {
      SplitByte(0, DigitValue(b).value);
      assert HexByte(DigitValue(b).value)[0] == LowerDigit(0);
    }
  }

  /** A digit is reproduced exactly when it is lower-case. */
  lemma DigitIff(c: char)
    requires DigitValue(c).Some?
    ensures LowerDigit(DigitValue(c).value) == c <==> IsLowerHex(c)
  {
  }

  lemma SplitByte(h: int, l: int)
    requires 0 <= h < 16 && 0 <= l < 16
    ensures (16 * h + l) / 16 == h && (16 * h + l) % 16 == l
  {
  }

  function ToLower(c: char): char { if 'A' <= c <= 'F' then c + 32 as char else c }

  /** The string in lower case, with a zero for every sign that leads a pair. */
  function Normal(s: string): (r: string)
    requires |s| % 2 == 0
    ensures |r| == |s|
  {
    if s == "" then "" else [if s[0] == '+' then '0' else ToLower(s[0]), ToLower(s[1])] + Normal(s[2..])
  }

  /** What decodes, and to what: exactly the even-length strings whose normal form consists of lower-case
      digits, to the bytes that this form encodes. */
  lemma {:induction false} DecodesAsNormal(s: string)
    ensures |s| % 2 != 0 ==> DecodeHex(s) == Failed(OddLength)
    ensures |s| % 2 == 0 ==>
              && (DecodeHex(s).Bytes? <==> AllLowerHex(Normal(s)))
              && (DecodeHex(s).Bytes? ==> HexEncode(DecodeHex(s).bytes) == Normal(s))
              && (DecodeHex(s).Failed? ==> DecodeHex(s) == Failed(ParseInt))
  {
    if |s| % 2 == 0 && s != "" {
      DecodesAsNormal(s[2..]);
      var pair := [if s[0] == '+' then '0' else ToLower(s[0]), ToLower(s[1])];
      var rest := Normal(s[2..]);
      NormalPair(s[0], s[1]);
      AllLower(pair, rest);
      assert Normal(s) == pair + rest;
      if DecodeHex(s).Bytes? { EncodeFirst(ParsePair(s[0], s[1]).value, DecodeHex(s[2..]).bytes); }
    }
  }

  lemma EncodeFirst(b: Byte, bytes: seq<Byte>)
    ensures HexEncode([b] + bytes) == HexByte(b) + HexEncode(bytes)
  {
    assert ([b] + bytes)[1..] == bytes;
  }

  predicate AllLowerHex(s: string) { forall i :: 0 <= i < |s| ==> IsLowerHex(s[i]) }

  lemma AllLower(pair: string, rest: string)
    requires |pair| == 2
    ensures AllLowerHex(pair + rest) <==> IsLowerHex(pair[0]) && IsLowerHex(pair[1]) && AllLowerHex(rest)
  {
    var s := pair + rest;
    if AllLowerHex(s) {
      assert s[0] == pair[0] && s[1] == pair[1];
      forall i | 0 <= i < |rest| ensures IsLowerHex(rest[i]) { assert rest[i] == s[i + 2]; }
    }
  }

  lemma NormalPair(x: char, y: char)
    ensures var (a, b) := (if x == '+' then '0' else ToLower(x), ToLower(y));
            && (ParsePair(x, y).Some? <==> IsLowerHex(a) && IsLowerHex(b))
            && (ParsePair(x, y).Some? ==> HexByte(ParsePair(x, y).value) == [a, b])
  {
    var (a, b) := (if x == '+' then '0' else ToLower(x), ToLower(y));
    assert ParsePair(x, y) == ParsePair(a, b);
    PairIff(a, b);
  }

  /** Decoding is not injective: a sign replaces a leading zero. */
  lemma PlusSignDecodes()
    ensures DecodeHex("+5") == DecodeHex("05") == Bytes([5])
  {
    assert "+5"[2..] == "" && "05"[2..] == "";
  }

  /** The storage key of a contract: "0x" and the id in hexadecimal. */
  function IdString(id: seq<Byte>): string { "0x" + HexEncode(id) }

  lemma IdStringInjective(a: seq<Byte>, b: seq<Byte>)
    ensures IdString(a) == IdString(b) <==> a == b
  {
    assert IdString(a)[2..] == HexEncode(a) && IdString(b)[2..] == HexEncode(b);
    DecodeEncode(a);
    DecodeEncode(b);
  }

  lemma {:induction false} EncodeAppend(a: seq<Byte>, b: Byte)
    ensures HexEncode(a + [b]) == HexEncode(a) + HexByte(b)
  {
    if a == [] {
      assert [b][1..] == [];
      assert HexEncode([b][1..]) == "";
    } else {
      EncodeAppend(a[1..], b);
      assert (a + [b])[1..] == a[1..] + [b];
    }
  }

  /** The loop that fills the string buffer, one formatted byte at a time. */
  method GetContractIdString(id: seq<Byte>) returns (s: string)
    ensures s == IdString(id)
    ensures DecodeHex(s[2..]) == Bytes(id)
  {
    s := "0x";
    for i := 0 to |id|
      invariant s == IdString(id[..i])
    {
      EncodeAppend(id[..i], id[i]);
      assert id[..i + 1] == id[..i] + [id[i]];
      s := s + HexByte(id[i]);
    }
    assert id[..|id|] == id;
    assert s[2..] == HexEncode(id);
    DecodeEncode(id);
  }
}

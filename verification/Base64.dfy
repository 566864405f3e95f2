/** Base64 with padding, section 4 (standard alphabet) and section 5 (URL alphabet) of RFC 4648,
    as the Go encoders used by the agents behave: padding required, line breaks skipped on input,
    trailing bits of the last quantum not checked. Text is a sequence of ASCII codes. */
module Base64 {
  import opened Common

  datatype Alphabet = Std | Url

  type sextet = i: int | 0 <= i < 64

  const PAD: byte := 61

  function Enc6(a: Alphabet, i: sextet): byte {
    if i < 26 then 65 + i
    else if i < 52 then 97 + (i - 26)
    else if i < 62 then 48 + (i - 52)
    else if i == 62 then (if a.Std? then 43 else 45)
    else (if a.Std? then 47 else 95)
  }

  function Dec6(a: Alphabet, b: byte): Option<sextet> {
    if 65 <= b < 91 then Some(b - 65)
    else if 97 <= b < 123 then Some(b - 97 + 26)
    else if 48 <= b < 58 then Some(b - 48 + 52)
    else if b == (if a.Std? then 43 else 45) then Some(62)
    else if b == (if a.Std? then 47 else 95) then Some(63)
    else None
  }

  function Quad(a: Alphabet, x: byte, y: byte, z: byte): Bytes {
    [Enc6(a, x / 4), Enc6(a, x % 4 * 16 + y / 16), Enc6(a, y % 16 * 4 + z / 64), Enc6(a, z % 64)]
  }

  /** The last quantum of one or two bytes. */
  function Tail1(a: Alphabet, x: byte): Bytes {
    [Enc6(a, x / 4), Enc6(a, x % 4 * 16), PAD, PAD]
  }

  function Tail2(a: Alphabet, x: byte, y: byte): Bytes {
    [Enc6(a, x / 4), Enc6(a, x % 4 * 16 + y / 16), Enc6(a, y % 16 * 4), PAD]
  }

  function Encode(a: Alphabet, s: Bytes): Bytes {
    if |s| == 0 then []
    else if |s| == 1 then Tail1(a, s[0])
    else if |s| == 2 then Tail2(a, s[0], s[1])
    else Quad(a, s[0], s[1], s[2]) + Encode(a, s[3..])
  }

  lemma {:induction false} EncodedLength(a: Alphabet, s: Bytes)
    ensures |Encode(a, s)| == (|s| + 2) / 3 * 4
  {
    if |s| >= 3 {
      EncodedLength(a, s[3..]);
    }
  }

  function StripNewlines(t: Bytes): (r: Bytes)
    ensures |r| <= |t|
  {
    if |t| == 0 then []
    else if t[0] == 10 || t[0] == 13 then StripNewlines(t[1..])
    else [t[0]] + StripNewlines(t[1..])
  }

  function Join4(p: sextet, q: sextet, r: sextet, s: sextet): Bytes {
    [p * 4 + q / 16, q % 16 * 16 + r / 4, r % 4 * 64 + s]
  }

  function DecodeQuanta(a: Alphabet, t: Bytes): (r: Option<Bytes>)
    ensures r.Some? ==> |r.value| <= |t|
  {
    if |t| == 0 then Some([])
    else if |t| < 4 then None
    else
      var p, q, r, s := Dec6(a, t[0]), Dec6(a, t[1]), Dec6(a, t[2]), Dec6(a, t[3]);
      if p.None? || q.None? then None
      else if |t| == 4 && t[2] == PAD && t[3] == PAD then
        Some(Join4(p.value, q.value, 0, 0)[..1])
      else if r.None? then None
      else if |t| == 4 && t[3] == PAD then
        Some(Join4(p.value, q.value, r.value, 0)[..2])
      else if s.None? then None
      else
        var rest := DecodeQuanta(a, t[4..]);
        if rest.None? then None
        else Some(Join4(p.value, q.value, r.value, s.value) + rest.value)
  }

  function Decode(a: Alphabet, t: Bytes): Option<Bytes> {
    DecodeQuanta(a, StripNewlines(t))
  }

  // ---- the alphabets and the order of the bits ----

  const UP_TO_61 := "ABCDEFGHIJKLMNOPQRSTUVWXYZ" + "abcdefghijklmnopqrstuvwxyz" + "0123456789"

  /** Tables 1 and 2 of RFC 4648. */
  function Table(a: Alphabet): (t: string)
    ensures |t| == 64
  {
    UP_TO_61 + (if a.Std? then "+/" else "-_")
  }

  lemma AlphabetIsTable(a: Alphabet, i: sextet)
    ensures Enc6(a, i) as char == Table(a)[i]
  {
    if i < 26 {
      assert Table(a)[i] == "ABCDEFGHIJKLMNOPQRSTUVWXYZ"[i];
    } else if i < 52 {
      assert Table(a)[i] == "abcdefghijklmnopqrstuvwxyz"[i - 26];
    } else if i < 62 {
      assert Table(a)[i] == "0123456789"[i - 52];
    }
  }

  /** The 24 bits of quantum k, missing bytes read as 0, first byte first. */
  function Bits24(s: Bytes, k: nat): nat {
    ByteAt(s, 3 * k) * 0x1_0000 + ByteAt(s, 3 * k + 1) * 0x100 + ByteAt(s, 3 * k + 2)
  }

  /** Its j-th group of six, from the left. */
  function Six(bits: nat, j: nat): sextet
    requires j < 4
  {
    if j == 0 then bits / 0x4_0000 % 64 else if j == 1 then bits / 0x1000 % 64
    else if j == 2 then bits / 64 % 64 else bits % 64
  }

  lemma Digits(p: sextet, q: sextet, r: sextet, s: sextet)
    ensures var bits := p * 0x4_0000 + q * 0x1000 + r * 64 + s;
            Six(bits, 0) == p && Six(bits, 1) == q && Six(bits, 2) == r && Six(bits, 3) == s
  {
    var bits := p * 0x4_0000 + q * 0x1000 + r * 64 + s;
    assert bits / 64 == p * 0x1000 + q * 64 + r;
    assert bits / 0x1000 == p * 64 + q;
    assert bits / 0x4_0000 == p;
  }

  lemma SixOfBytes(x: byte, y: byte, z: byte)
    ensures x % 4 * 16 + y / 16 < 64 && y % 16 * 4 + z / 64 < 64
    ensures var bits := x * 0x1_0000 + y * 0x100 + z;
            && Six(bits, 0) == x / 4 && Six(bits, 1) == x % 4 * 16 + y / 16
            && Six(bits, 2) == y % 16 * 4 + z / 64 && Six(bits, 3) == z % 64
  {
    Join4Quad(x, y, z);
    Digits(x / 4, x % 4 * 16 + y / 16, y % 16 * 4 + z / 64, z % 64);
    assert x * 0x1_0000 + y * 0x100 + z ==
           x / 4 * 0x4_0000 + (x % 4 * 16 + y / 16) * 0x1000 + (y % 16 * 4 + z / 64) * 64 + z % 64;
  }

  lemma {:induction false} FirstQuantum(a: Alphabet, s: Bytes, j: nat)
    requires |s| > 0 && j < 4
    ensures |Encode(a, s)| >= 4
    ensures Encode(a, s)[j] == if j > |s| then PAD else Enc6(a, Six(Bits24(s, 0), j))
  {
    var x, y, z := ByteAt(s, 0), ByteAt(s, 1), ByteAt(s, 2);
    SixOfBytes(x, y, z);
    FirstLetters(a, s, j);
  }

  lemma {:induction false} FirstLetters(a: Alphabet, s: Bytes, j: nat)
    requires |s| > 0 && j < 4
    ensures |Encode(a, s)| >= 4
    ensures var x, y, z := ByteAt(s, 0), ByteAt(s, 1), ByteAt(s, 2);
            Encode(a, s)[j] == if j > |s| then PAD
                               else if j == 0 then Enc6(a, x / 4)
                               else if j == 1 then Enc6(a, x % 4 * 16 + y / 16)
                               else if j == 2 then Enc6(a, y % 16 * 4 + z / 64)
                               else Enc6(a, z % 64)
  {}

  /** The encoding of section 4 of RFC 4648: each three bytes, taken as 24 bits from the left, become four
      letters of the table; a last group short of bytes is filled with zero bits and padded. */
  lemma {:induction false} EncodeFollowsRfc(a: Alphabet, s: Bytes, k: nat, j: nat)
    requires 3 * k < |s| && j < 4
    ensures 4 * k + j < |Encode(a, s)|
    ensures Encode(a, s)[4 * k + j] as char ==
            if 3 * k + j > |s| then '=' else Table(a)[Six(Bits24(s, k), j)]
    decreases k
  {
    if k == 0 {
      FirstQuantum(a, s, j);
      AlphabetIsTable(a, Six(Bits24(s, 0), j));
    } else {
      EncodeFollowsRfc(a, s[3..], k - 1, j);
      assert Bits24(s[3..], k - 1) == Bits24(s, k);
    }
  }

  /** A buffer as long as the text holds whatever it decodes to. */
  lemma DecodedFits(a: Alphabet, t: Bytes)
    ensures Decode(a, t).Some? ==> |Decode(a, t).value| <= |t|
  {}

  lemma Dec6Enc6(a: Alphabet, i: sextet)
    ensures Dec6(a, Enc6(a, i)) == Some(i)
    ensures Enc6(a, i) !in {0, 10, 13, PAD}
  {}

  lemma Join4Quad(x: byte, y: byte, z: byte)
    ensures x % 4 * 16 + y / 16 < 64 && y % 16 * 4 + z / 64 < 64
    ensures Join4(x / 4, x % 4 * 16 + y / 16, y % 16 * 4 + z / 64, z % 64) == [x, y, z]
  {}

  /** No NUL, no line break: every byte written by the encoder survives trimming and stripping. */
  lemma {:induction false} EncodedIsPrintable(a: Alphabet, s: Bytes)
    ensures forall k :: 0 <= k < |Encode(a, s)| ==> Encode(a, s)[k] !in {0, 10, 13}
  {
    if 0 < |s| < 3 {
      Dec6Enc6(a, s[0] / 4);
      Dec6Enc6(a, s[0] % 4 * 16 + (if |s| == 2 then s[1] / 16 else 0));
      Dec6Enc6(a, if |s| == 2 then s[1] % 16 * 4 else 0);
    } else if |s| >= 3 {
      Dec6Enc6(a, s[0] / 4);
      Dec6Enc6(a, s[0] % 4 * 16 + s[1] / 16);
      Dec6Enc6(a, s[1] % 16 * 4 + s[2] / 64);
      Dec6Enc6(a, s[2] % 64);
      EncodedIsPrintable(a, s[3..]);
    }
  }

  lemma {:induction false} StripNewlinesIdentity(t: Bytes)
    requires forall k :: 0 <= k < |t| ==> t[k] !in {0, 10, 13}
    ensures StripNewlines(t) == t
  {
    if |t| > 0 {
      StripNewlinesIdentity(t[1..]);
    }
  }

  lemma {:induction false} PaddedQuanta(a: Alphabet, p: sextet, q: sextet, r: sextet)
    ensures DecodeQuanta(a, [Enc6(a, p), Enc6(a, q), PAD, PAD]) == Some(Join4(p, q, 0, 0)[..1])
    ensures DecodeQuanta(a, [Enc6(a, p), Enc6(a, q), Enc6(a, r), PAD]) == Some(Join4(p, q, r, 0)[..2])
  {
    Dec6Enc6(a, p);
    Dec6Enc6(a, q);
    Dec6Enc6(a, r);
  }

  lemma JoinShort(x: byte, y: byte)
    ensures x % 4 * 16 < 64 && x % 4 * 16 + y / 16 < 64 && y % 16 * 4 < 64
    ensures Join4(x / 4, x % 4 * 16, 0, 0)[..1] == [x]
    ensures Join4(x / 4, x % 4 * 16 + y / 16, y % 16 * 4, 0)[..2] == [x, y]
  {
    Join4Quad(x, 0, 0);
    Join4Quad(x, y, 0);
  }

  lemma {:induction false} Tail1Decodes(a: Alphabet, x: byte)
    ensures DecodeQuanta(a, Tail1(a, x)) == Some([x])
  {
    JoinShort(x, 0);
    PaddedQuanta(a, x / 4, x % 4 * 16, 0);
  }

  lemma {:induction false} Tail2Decodes(a: Alphabet, x: byte, y: byte)
    ensures DecodeQuanta(a, Tail2(a, x, y)) == Some([x, y])
  {
    JoinShort(x, y);
    PaddedQuanta(a, x / 4, x % 4 * 16 + y / 16, y % 16 * 4);
  }

  lemma {:induction false} QuadDecodes(a: Alphabet, x: byte, y: byte, z: byte, rest: Bytes)
    requires DecodeQuanta(a, rest).Some?
    ensures DecodeQuanta(a, Quad(a, x, y, z) + rest) == Some([x, y, z] + DecodeQuanta(a, rest).value)
  {
    Dec6Enc6(a, x / 4);
    Dec6Enc6(a, x % 4 * 16 + y / 16);
    Dec6Enc6(a, y % 16 * 4 + z / 64);
    Dec6Enc6(a, z % 64);
    Join4Quad(x, y, z);
    assert (Quad(a, x, y, z) + rest)[4..] == rest;
  }

  lemma {:induction false} QuantaRoundTrip(a: Alphabet, s: Bytes)
    ensures DecodeQuanta(a, Encode(a, s)) == Some(s)
  {
    if |s| == 0 {
    } else if |s| == 1 {
      Tail1Decodes(a, s[0]);
      assert s == [s[0]];
    } else if |s| == 2 {
      Tail2Decodes(a, s[0], s[1]);
      assert s == [s[0], s[1]];
    } else {
      QuantaRoundTrip(a, s[3..]);
      QuadDecodes(a, s[0], s[1], s[2], Encode(a, s[3..]));
      assert s == [s[0], s[1], s[2]] + s[3..];
    }
  }

  /** Decoding undoes encoding, in both alphabets. */
  lemma {:induction false} RoundTrip(a: Alphabet, s: Bytes)
    ensures Decode(a, Encode(a, s)) == Some(s)
  {
    EncodedIsPrintable(a, s);
    StripNewlinesIdentity(Encode(a, s));
    QuantaRoundTrip(a, s);
  }

  lemma {:induction false} EncodeInjective(a: Alphabet, s: Bytes, t: Bytes)
    requires Encode(a, s) == Encode(a, t)
    ensures s == t
  {
    RoundTrip(a, s);
    RoundTrip(a, t);
  }

  /** Encoding into a caller's buffer: Go's Encode indexes past a buffer that is too short and panics,
      which is reported here as `fits == false` with the buffer contents unspecified. */
  method EncodeInto(a: Alphabet, dst: array<byte>, src: Bytes) returns (fits: bool)
    modifies dst
    ensures fits <==> (|src| + 2) / 3 * 4 <= dst.Length
    ensures fits ==> dst[..] == Encode(a, src) + old(dst[..])[(|src| + 2) / 3 * 4..]
  {
    var text := Encode(a, src);
    EncodedLength(a, src);
    fits := |text| <= dst.Length;
    if fits {
      forall i | 0 <= i < |text| {
        dst[i] := text[i];
      }
    }
  }

  /** The idiom used for keys and checksums: encode into a zeroed buffer of a fixed size, then trim.
      The result is the plain encoding, provided the buffer was large enough. */
  method EncodeTrimmed(a: Alphabet, size: nat, src: Bytes) returns (r: Option<Bytes>)
    ensures r == if (|src| + 2) / 3 * 4 <= size then Some(Encode(a, src)) else None
  {
    var buf := new byte[size](i => 0);
    var fits := EncodeInto(a, buf, src);
    if !fits {
      return None;
    }
    EncodedIsPrintable(a, src);
    EncodedLength(a, src);
    var used := |Encode(a, src)|;
    assert buf[..] == Encode(a, src) + Zeros(size - used);
    TrimRemovesUnusedBuffer(Encode(a, src), size - used);
    r := Some(Trim(buf[..]));
  }
}

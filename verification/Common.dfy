/** Types shared by every component: bytes, optional values, and the NUL trimming
    that the original applies to its over-allocated buffers. */
module Common {

  datatype Option<+T> = None | Some(value: T)

  /** A Go `(value, error)` pair; the error text itself is not modelled. */
  datatype Result<+T> = Ok(value: T) | Err

  type byte = b: int | 0 <= b < 256

  type Bytes = seq<byte>

  /** bytes.TrimLeft(s, "\x00") */
  function TrimLeft(s: Bytes): Bytes {
    if |s| > 0 && s[0] == 0 then TrimLeft(s[1..]) else s
  }

  /** bytes.TrimRight(s, "\x00") */
  function TrimRight(s: Bytes): Bytes {
    if |s| > 0 && s[|s| - 1] == 0 then TrimRight(s[..|s| - 1]) else s
  }

  /** bytes.Trim(s, "\x00") */
  function Trim(s: Bytes): Bytes {
    TrimRight(TrimLeft(s))
  }

  /** Reading past the end yields 0. */
  function ByteAt(src: Bytes, i: nat): byte {
    if i < |src| then src[i] else 0
  }

  function Zeros(n: nat): Bytes {
    seq(n, i => 0)
  }

  ghost predicate NoNulAtEnds(s: Bytes) {
    |s| > 0 ==> s[0] != 0 && s[|s| - 1] != 0
  }

  lemma {:induction false} TrimRightDropsPadding(s: Bytes, n: nat)
    ensures TrimRight(s + Zeros(n)) == TrimRight(s)
    decreases n
  {
    if n == 0 {
      assert s + Zeros(0) == s;
    } else {
      var t := s + Zeros(n);
      assert t[..|t| - 1] == s + Zeros(n - 1);
      TrimRightDropsPadding(s, n - 1);
    }
  }

  lemma {:induction false} TrimDropsPadding(s: Bytes, n: nat)
    ensures Trim(s + Zeros(n)) == Trim(s)
    decreases |s| + n
  {
    if |s| == 0 {
      assert s + Zeros(n) == Zeros(n);
      if n > 0 {
        assert Zeros(n)[1..] == [] + Zeros(n - 1);
        TrimDropsPadding([], n - 1);
      }
    } else if s[0] == 0 {
      assert (s + Zeros(n))[1..] == s[1..] + Zeros(n);
      TrimDropsPadding(s[1..], n);
    } else {
      TrimRightDropsPadding(s, n);
    }
  }

  /** Trimming a zero-filled buffer removes exactly the bytes that were never written. */
  lemma TrimRemovesUnusedBuffer(s: Bytes, n: nat)
    requires NoNulAtEnds(s)
    ensures Trim(s + Zeros(n)) == s
  {
    TrimDropsPadding(s, n);
  }
}

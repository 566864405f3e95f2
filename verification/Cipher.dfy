/** Fitting of nonces and keys to the sizes the primitives demand (crypto/cipher.go). */
module Cipher {
  import opened Common

  const NONCE_BYTES := 24
  const IV_BYTES := 12
  const KEY_BYTES := 32

  /** A nonce of exactly 24 bytes: padded with '0' characters or cut. */
  function FitNonce(nonce: Bytes): (r: Bytes)
    ensures |r| == NONCE_BYTES
    ensures forall i :: 0 <= i < |nonce| && i < NONCE_BYTES ==> r[i] == nonce[i]
    ensures forall i :: |nonce| <= i < NONCE_BYTES ==> r[i] == 48
  {
    if |nonce| < NONCE_BYTES then nonce + seq(NONCE_BYTES - |nonce|, i => 48) else nonce[..NONCE_BYTES]
  }

  method ModifyNonce(nonce: Bytes) returns (r: Bytes)
    ensures r == FitNonce(nonce)
  {
    r := nonce;
    if |r| < NONCE_BYTES {
      while |r| != NONCE_BYTES
        invariant |nonce| <= |r| <= NONCE_BYTES
        invariant r[..|nonce|] == nonce
        invariant forall i :: |nonce| <= i < |r| ==> r[i] == 48
        decreases NONCE_BYTES - |r|
      {
        r := r + [48];
      }
    } else if |r| > NONCE_BYTES {
      r := r[..NONCE_BYTES];
    }
  }

  /** Alike in their first n bytes, missing ones read as 0. */
  ghost predicate SameStart(n: nat, x: Bytes, y: Bytes) {
    forall i :: 0 <= i < n ==> ByteAt(x, i) == ByteAt(y, i)
  }

  /** Two keys reach the cipher as one exactly when they start alike. */
  lemma FixedTellsApart(n: nat, x: Bytes, y: Bytes)
    ensures Fixed(n, x) == Fixed(n, y) <==> SameStart(n, x, y)
    ensures |x| >= n && |y| >= n ==> (SameStart(n, x, y) <==> x[..n] == y[..n])
  {
    if Fixed(n, x) == Fixed(n, y) {
      forall i | 0 <= i < n ensures ByteAt(x, i) == ByteAt(y, i) {
        assert Fixed(n, x)[i] == ByteAt(x, i) && Fixed(n, y)[i] == ByteAt(y, i);
      }
    }
    if |x| >= n && |y| >= n && SameStart(n, x, y) {
      forall i | 0 <= i < n ensures x[..n][i] == y[..n][i] {
        assert ByteAt(x, i) == ByteAt(y, i);
      }
    }
    if |x| >= n && |y| >= n && x[..n] == y[..n] {
      forall i | 0 <= i < n ensures ByteAt(x, i) == ByteAt(y, i) {
        assert x[..n][i] == y[..n][i];
      }
    }
  }

  /** What `copy(fixed[:], src)` leaves in a zeroed array of n bytes. */
  function Fixed(n: nat, src: Bytes): (r: Bytes)
    ensures |r| == n
    ensures forall i :: 0 <= i < n ==> r[i] == ByteAt(src, i)
  {
    if |src| < n then src + Zeros(n - |src|) else src[..n]
  }

  method CopyFixed(n: nat, src: Bytes) returns (dst: array<byte>)
    ensures fresh(dst) && dst[..] == Fixed(n, src)
  {
    dst := new byte[n](i => 0);
    var m := if |src| < n then |src| else n;
    forall i | 0 <= i < m {
      dst[i] := src[i];
    }
  }
}

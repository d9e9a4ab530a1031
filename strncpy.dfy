/** The C library's bounded string copy `strncpy(dest, src, n)`, which the
    header constructors use to fill a header's information buffer: bytes of
    src are copied up to its first NUL, the rest of the n bytes are filled
    with NUL, and when src has no NUL among its first n bytes all n are
    copied and no terminator is written. Nothing beyond dest[n - 1] changes. */
module BoundedCopy {
  import opened Packets

  /** The number of bytes before the first NUL among the first n bytes of s,
      or n when there is none (C's strnlen). */
  function StrNLen(s: seq<uint8>, n: nat): (k: nat)
    requires n <= |s|
    ensures k <= n
    ensures forall i :: 0 <= i < k ==> s[i] != 0
    ensures k < n ==> s[k] == 0
  {
    if n == 0 || s[0] == 0 then 0 else 1 + StrNLen(s[1..], n - 1)
  }

  /** n NUL bytes. */
  function Zeros(n: nat): (z: seq<uint8>)
    ensures |z| == n
    ensures forall i :: 0 <= i < n ==> z[i] == 0
  {
    if n == 0 then [] else [0] + Zeros(n - 1)
  }

  /** The n bytes strncpy leaves in dest, walking src byte by byte. */
  function StrNCpy(src: seq<uint8>, n: nat): (dst: seq<uint8>)
    requires n <= |src|
    ensures |dst| == n
  {
    if n == 0 then []
    else if src[0] == 0 then Zeros(n)
    else [src[0]] + StrNCpy(src[1..], n - 1)
  }

  /** Every byte before the first NUL of src is copied, every byte from it on
      is NUL. */
  lemma {:induction false} StrNCpyAt(src: seq<uint8>, n: nat, i: nat)
    requires n <= |src| && i < n
    ensures i < StrNLen(src, n) ==> StrNCpy(src, n)[i] == src[i]
    ensures StrNLen(src, n) <= i ==> StrNCpy(src, n)[i] == 0
  {
    if src[0] != 0 && i > 0 {
      StrNCpyAt(src[1..], n - 1, i - 1);
    }
  }

  /** The copy, stated over all positions: prefix preserved, zero padding. */
  lemma {:induction false} StrNCpySpec(src: seq<uint8>, n: nat)
    requires n <= |src|
    ensures forall i :: 0 <= i < StrNLen(src, n) ==> StrNCpy(src, n)[i] == src[i]
    ensures forall i :: StrNLen(src, n) <= i < n ==> StrNCpy(src, n)[i] == 0
  {
    forall i | 0 <= i < n
      ensures i < StrNLen(src, n) ==> StrNCpy(src, n)[i] == src[i]
      ensures StrNLen(src, n) <= i ==> StrNCpy(src, n)[i] == 0
    {
      StrNCpyAt(src, n, i);
    }
  }

  /** A source with no NUL among its first n bytes is copied whole, and the
      copy holds no terminator. */
  lemma {:induction false} StrNCpyUnterminated(src: seq<uint8>, n: nat)
    requires n <= |src|
    requires forall i :: 0 <= i < n ==> src[i] != 0
    ensures StrNCpy(src, n) == src[..n]
    ensures forall i :: 0 <= i < n ==> StrNCpy(src, n)[i] != 0
  {
    StrNCpySpec(src, n);
  }

  /** The C string read back from the copy is the C string of the source
      (cut at n bytes): the copy loses nothing before the first NUL. */
  lemma {:induction false} StrNCpyKeepsString(src: seq<uint8>, n: nat)
    requires n <= |src|
    ensures StrNLen(StrNCpy(src, n), n) == StrNLen(src, n)
    ensures StrNCpy(src, n)[..StrNLen(src, n)] == src[..StrNLen(src, n)]
  {
    var dst, k := StrNCpy(src, n), StrNLen(src, n);
    StrNCpySpec(src, n);
    // dst is non-NUL before k and NUL at k, which fixes its StrNLen at k
    assert forall i :: 0 <= i < k ==> dst[i] != 0;
    assert k < n ==> dst[k] == 0;
  }

  /** Copying a copy changes nothing. */
  lemma {:induction false} StrNCpyIdempotent(src: seq<uint8>, n: nat)
    requires n <= |src|
    ensures StrNCpy(StrNCpy(src, n), n) == StrNCpy(src, n)
  {
    var dst := StrNCpy(src, n);
    StrNCpyKeepsString(src, n);
    StrNCpySpec(src, n);
    StrNCpySpec(dst, n);
  }

  /** strncpy(dest, src, n) on a buffer: fills dest[0..n] in place, first the
      bytes of src before its first NUL, then NULs up to n. */
  method StrNCpyInto(dest: array<uint8>, src: seq<uint8>, n: nat)
    requires n <= dest.Length && n <= |src|
    modifies dest
    ensures dest[..n] == StrNCpy(src, n)
    ensures dest[n..] == old(dest[n..])
  {
    var i := 0;
    while i < n && src[i] != 0
      invariant i <= StrNLen(src, n)
      invariant forall j :: 0 <= j < i ==> dest[j] == src[j]
      invariant dest[n..] == old(dest[n..])
    {
      dest[i] := src[i];
      i := i + 1;
    }
    while i < n
      invariant StrNLen(src, n) <= i <= n
      invariant forall j :: 0 <= j < StrNLen(src, n) ==> dest[j] == src[j]
      invariant forall j :: StrNLen(src, n) <= j < i ==> dest[j] == 0
      invariant dest[n..] == old(dest[n..])
    {
      dest[i] := 0;
      i := i + 1;
    }
    StrNCpySpec(src, n);
  }
}

/**
 NUL-terminated strings held in fixed-size `char` buffers, and `strlcpy`, the
 bounded copy the settings store uses to fill them.
 */
module CStrings {

  const NUL: char := '\0'

  /**
   The text of the C string held in `s`: the characters before the first NUL,
   or all of `s` when it holds none (the end of a sequence passed as a
   `const char *` stands for its terminator).
   */
  function CString(s: seq<char>): (r: seq<char>)
    ensures |r| <= |s| && r == s[..|r|]
    ensures NUL !in r
    ensures |r| < |s| ==> s[|r|] == NUL
  {
    if s == [] || s[0] == NUL then [] else [s[0]] + CString(s[1..])
  }

  /** A buffer holds a well-formed C string when a NUL occurs in it. */
  predicate Terminated(buf: seq<char>) {
    NUL in buf
  }

  /**
   The string that `strlcpy(dst, src, size)` leaves in `dst`: the C string in
   `src`, cut to at most `size - 1` characters so that the terminator fits.
   */
  function Truncate(src: seq<char>, size: nat): (r: seq<char>)
    requires size >= 1
    ensures |r| == if |CString(src)| < size then |CString(src)| else size - 1
    ensures r == CString(src)[..|r|]
    ensures NUL !in r
  {
    var c := CString(src);
    if |c| < size then c else c[..size - 1]
  }

  /** A NUL-free prefix of `s` is a prefix of the C string in `s`. */
  lemma PlainPrefix(s: seq<char>, i: nat)
    requires i <= |s| && NUL !in s[..i]
    ensures i <= |CString(s)| && CString(s)[..i] == s[..i]
  {
  }

  /** A NUL-free string of fewer than `size` characters survives `strlcpy` into a buffer of `size` bytes unchanged. */
  lemma TruncateKeepsFitting(s: seq<char>, size: nat)
    requires size >= 1 && NUL !in s && |s| < size
    ensures Truncate(s, size) == s
  {
    PlainPrefix(s, |s|);
  }

  /** Copying the copy again into a buffer of the same size changes nothing. */
  lemma TruncateIdempotent(s: seq<char>, size: nat)
    requires size >= 1
    ensures Truncate(Truncate(s, size), size) == Truncate(s, size)
  {
    TruncateKeepsFitting(Truncate(s, size), size);
  }

  /** The C string in a terminated buffer leaves room for its terminator. */
  lemma TerminatedFits(buf: seq<char>)
    requires Terminated(buf)
    ensures |CString(buf)| < |buf|
  {
  }

  /**
   `strlcpy(dst, src, dst.Length)`: copies characters of `src` up to its first
   NUL, at most `dst.Length - 1` of them, and writes a terminator after them.
   The bytes after the terminator keep their old values.
   */
  method Strlcpy(dst: array<char>, src: seq<char>)
    requires dst.Length >= 1
    modifies dst
    ensures Terminated(dst[..])
    ensures CString(dst[..]) == Truncate(src, dst.Length)
    ensures forall k :: |Truncate(src, dst.Length)| < k < dst.Length ==> dst[k] == old(dst[k])
  {
    var i := 0;
    while i < dst.Length - 1 && i < |src| && src[i] != NUL
      invariant i <= dst.Length - 1 && i <= |src|
      invariant forall k :: 0 <= k < i ==> dst[k] == src[k] && src[k] != NUL
      invariant forall k :: i <= k < dst.Length ==> dst[k] == old(dst[k])
    {
      dst[i] := src[i];
      i := i + 1;
    }
    dst[i] := NUL;
    assert dst[..i] == src[..i];
    PlainPrefix(dst[..], i);
    PlainPrefix(src, i);
    assert CString(dst[..]) == src[..i] by {
      assert dst[..][i] == NUL;
    }
  }
}

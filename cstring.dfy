/**
 * Fixed-size C character buffers: the C string a buffer holds, strncpy, and the
 * bounded copy that forces the buffer's last byte to NUL.
 */
module CString {

  const NUL: char := '\0'

  function Min(a: nat, b: nat): nat {
    if a <= b then a else b
  }

  /**
   * The length of the C string held in a buffer: the position of its first NUL,
   * or the whole buffer when it holds none (reading stops at the buffer's end).
   */
  function Length(s: seq<char>): (n: nat)
    ensures n <= |s|
    ensures forall i :: 0 <= i < n ==> s[i] != NUL
    ensures n < |s| ==> s[n] == NUL
  {
    if s == [] || s[0] == NUL then 0 else 1 + Length(s[1..])
  }

  /** The characters of the C string a buffer holds, without its terminator. */
  function Contents(s: seq<char>): seq<char> {
    s[..Length(s)]
  }

  /** The first NUL of a buffer is its string's length: the three properties of Length determine it. */
  lemma {:induction false} LengthIsFirstNul(s: seq<char>, n: nat)
    requires n <= |s|
    requires forall i :: 0 <= i < n ==> s[i] != NUL
    requires n < |s| ==> s[n] == NUL
    ensures Length(s) == n
  {
    if n > 0 {
      LengthIsFirstNul(s[1..], n - 1);
    }
  }

  /**
   * strncpy(dst, src, n): the characters of src up to its terminator, at most n
   * of them, and NUL padding up to n.
   */
  function StrNCpy(src: seq<char>, n: nat): (dst: seq<char>)
    ensures |dst| == n
  {
    seq(n, i requires 0 <= i < n => if i < Length(src) then src[i] else NUL)
  }

  /**
   * strncpy copies the source's C string, cut to the destination's size; when
   * the source's string is shorter than n the copy is NUL-terminated.
   */
  lemma StrNCpyCopiesString(src: seq<char>, n: nat)
    ensures Contents(StrNCpy(src, n)) == Contents(src)[..Min(Length(src), n)]
    ensures Length(src) < n ==> StrNCpy(src, n)[Length(src)] == NUL
  {
    LengthIsFirstNul(StrNCpy(src, n), Min(Length(src), n));
  }

  /** strncpy into a buffer of n bytes followed by buffer[n - 1] = 0. */
  function BoundedCopy(src: seq<char>, n: nat): (dst: seq<char>)
    requires n >= 1
    ensures |dst| == n && dst[n - 1] == NUL
  {
    StrNCpy(src, n)[n - 1 := NUL]
  }

  /** The bounded copy always holds a terminated string: the source's, cut to n - 1 characters. */
  lemma BoundedCopyCopiesString(src: seq<char>, n: nat)
    requires n >= 1
    ensures Length(BoundedCopy(src, n)) == Min(Length(src), n - 1) < n
    ensures Contents(BoundedCopy(src, n)) == Contents(src)[..Min(Length(src), n - 1)]
  {
    LengthIsFirstNul(BoundedCopy(src, n), Min(Length(src), n - 1));
  }
}

/** C strings as the driver handles them: a character array whose text ends
    at the first NUL. A sequence here is all the memory that may be read from
    the start of the string; when it holds no NUL, the text runs to its end. */
module CString {

  const Nul: char := '\0'

  predicate NulFree(s: seq<char>)
  {
    forall i :: 0 <= i < |s| ==> s[i] != Nul
  }

  /** strlen: the position of the first NUL, or |s| when there is none. */
  function StrLen(s: seq<char>): (n: nat)
    ensures n <= |s|
    ensures NulFree(s[..n])
    ensures n < |s| ==> s[n] == Nul
    decreases |s|
  {
    if s == [] || s[0] == Nul then 0
    else
      var n := 1 + StrLen(s[1..]);
      assert s[..n] == [s[0]] + s[1..][..n - 1];
      n
  }

  /** The text of a C string: everything before its first NUL. */
  function Text(s: seq<char>): (t: seq<char>)
    ensures |t| <= |s| && t == s[..|t|]
    ensures NulFree(t)
    ensures |t| < |s| ==> s[|t|] == Nul
  {
    s[..StrLen(s)]
  }

  /** A NUL-free sequence is all text; text and a NUL, whatever follows. */
  lemma {:induction false} TextOfNulFree(s: seq<char>, rest: seq<char>)
    requires NulFree(s)
    ensures Text(s) == s
    ensures Text(s + [Nul] + rest) == s
    decreases |s|
  {
    if s != [] {
      TextOfNulFree(s[1..], rest);
      assert (s + [Nul] + rest)[1..] == s[1..] + [Nul] + rest;
    }
  }

  function Zeros(n: nat): (z: seq<char>)
    ensures |z| == n && forall i :: 0 <= i < n ==> z[i] == Nul
  {
    seq(n, _ => Nul)
  }

  function Min(a: nat, b: nat): nat
  {
    if a <= b then a else b
  }

  /** strncpy into an `n`-character array: at most `n` characters of the
      source text are copied and the rest of the array is filled with NULs
      (none is added when the text fills the array). */
  function StrnCpy(src: seq<char>, n: nat): (r: seq<char>)
    ensures |r| == n
  {
    var k := Min(StrLen(src), n);
    src[..k] + Zeros(n - k)
  }

  /** What StrnCpy keeps: the text read back from the array is the source
      text cut to `n` characters. */
  lemma StrnCpyText(src: seq<char>, n: nat)
    ensures Text(StrnCpy(src, n)) == Text(src)[..Min(StrLen(src), n)]
  {
    var k := Min(StrLen(src), n);
    var r := StrnCpy(src, n);
    assert r[..k] == src[..k];
    if k < n {
      assert r == src[..k] + [Nul] + Zeros(n - k - 1);
      TextOfNulFree(src[..k], Zeros(n - k - 1));
    } else {
      assert r == src[..k] + [];
      TextOfNulFree(src[..k], []);
    }
  }

  /** strncmp(a, b, n) == 0: the texts agree on their first `n` characters
      (a shorter text differs from a longer one at its terminating NUL). */
  predicate StrnEq(a: seq<char>, b: seq<char>, n: nat)
  {
    Text(a)[..Min(StrLen(a), n)] == Text(b)[..Min(StrLen(b), n)]
  }
}

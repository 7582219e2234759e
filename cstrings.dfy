/** NUL-terminated character buffers as the C library sees them: `strlen`
    and `strcat` on a fixed-size `char` array. */
module CStrings {

  const Nul: char := '\0'

  /** A C string's contents: characters up to, not including, the terminator. */
  predicate IsCString(s: string) {
    Nul !in s
  }

  /** `strlen`: the index of the first NUL in a buffer that holds one. */
  function StrLen(a: seq<char>): (n: nat)
    requires Nul in a
    ensures n < |a| && a[n] == Nul
    ensures IsCString(a[..n])
  {
    if a[0] == Nul then 0
    else
      assert Nul in a[1..] by {
        var k :| 0 <= k < |a| && a[k] == Nul;
        assert a[1..][k - 1] == Nul;
      }
      assert a[..1 + StrLen(a[1..])] == [a[0]] + a[1..][..StrLen(a[1..])];
      1 + StrLen(a[1..])
  }

  /** The string a buffer holds: everything before its first NUL. */
  function CStr(a: seq<char>): (s: string)
    requires Nul in a
    ensures IsCString(s) && |s| < |a|
    ensures s == a[..|s|] && a[|s|] == Nul
  {
    a[..StrLen(a)]
  }

  /** A buffer whose prefix is a C string followed by a NUL holds exactly that
      string, whatever comes after the terminator. */
  lemma CStrOfTerminated(a: seq<char>, s: string)
    requires IsCString(s) && |s| < |a|
    requires a[..|s|] == s && a[|s|] == Nul
    ensures Nul in a && CStr(a) == s
  {
  }

  /** `strcat(buf, s)`: appends `s` at the buffer's terminator. The caller
      must leave room for `s` and the new terminator; writing past the end of
      the array is undefined behaviour in C. */
  method Strcat(buf: array<char>, s: string)
    requires Nul in buf[..] && IsCString(s)
    requires StrLen(buf[..]) + |s| < buf.Length
    modifies buf
    ensures Nul in buf[..] && CStr(buf[..]) == CStr(old(buf[..])) + s
  {
    ghost var before := buf[..];
    var n := 0;
    while buf[n] != Nul
      invariant 0 <= n <= StrLen(before)
      invariant forall k :: 0 <= k < n ==> buf[k] != Nul
      decreases StrLen(before) - n
    {
      n := n + 1;
    }
    assert n == StrLen(before);
    var j := 0;
    while j < |s|
      invariant 0 <= j <= |s| && n + |s| < buf.Length
      invariant buf[..n] == before[..n]
      invariant buf[n..n + j] == s[..j]
    {
      buf[n + j] := s[j];
      assert buf[n..n + j + 1] == buf[n..n + j] + [s[j]];
      assert s[..j + 1] == s[..j] + [s[j]];
      j := j + 1;
    }
    buf[n + |s|] := Nul;
    assert buf[..n + |s|] == CStr(before) + s by {
      assert buf[..n + |s|] == buf[..n] + buf[n..n + |s|];
    }
    CStrOfTerminated(buf[..], CStr(before) + s);
  }
}

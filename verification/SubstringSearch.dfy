/**
 Substring search (shared/string.c): memcmp, and memmem's "Not So Naive" search, which
 looks at the second needle byte first and may skip two positions at a time.
 */
module SubstringSearch {
  import opened Bytes

  datatype Option<+T> = None | Some(value: T)

  // The needle occurs in the haystack at position j.
  ghost predicate OccursAt(needle: seq<byte>, haystack: seq<byte>, j: nat) {
    j + |needle| <= |haystack| && haystack[j..j + |needle|] == needle
  }

  ghost predicate NoneBefore(needle: seq<byte>, haystack: seq<byte>, j: nat) {
    forall i: nat | i < j :: !OccursAt(needle, haystack, i)
  }

  // memcmp: the difference of the first pair of unequal bytes, or 0 when there is none.
  method MemCmp(s1: seq<byte>, s2: seq<byte>, n: nat) returns (d: int)
    requires n <= |s1| && n <= |s2|
    ensures d == 0 <==> s1[..n] == s2[..n]
    ensures d != 0 ==>
      exists i: nat | i < n :: s1[..i] == s2[..i] && s1[i] != s2[i] && d == s1[i] as int - s2[i] as int
  {
    d := 0;
    var i := 0;
    while i < n
      invariant i <= n && d == 0 && s1[..i] == s2[..i]
    {
      d := s1[i] as int - s2[i] as int;
      if d != 0 {
        assert s1[..n][i] != s2[..n][i];
        return;
      }
      i := i + 1;
    }
  }

  // An occurrence at j is the first two bytes and then the rest.
  lemma OccursByParts(x: seq<byte>, y: seq<byte>, j: nat)
    requires 2 <= |x| && j + |x| <= |y|
    ensures OccursAt(x, y, j) <==> x[0] == y[j] && x[1] == y[j + 1] && x[2..] == y[j + 2..j + |x|]
  {
    var w := y[j..j + |x|];
    assert w == [y[j], y[j + 1]] + y[j + 2..j + |x|];
    assert x == [x[0], x[1]] + x[2..];
  }

  // Skipping one extra position is sound: the byte seen at j + 1 already rules out j + 1.
  lemma SkipTwo(x: seq<byte>, y: seq<byte>, j: nat)
    requires 2 <= |x| && j + 1 < |y|
    requires x[0] != y[j + 1]
    ensures !OccursAt(x, y, j + 1)
  {
    if j + 1 + |x| <= |y| {
      assert y[j + 1..j + 1 + |x|][0] == y[j + 1];
    }
  }

  // memmem: the leftmost occurrence, or nothing exactly when there is none. The empty
  // needle (and the empty haystack) is answered with nothing, as the code does.
  method MemMem(y: seq<byte>, x: seq<byte>) returns (r: Option<nat>)
    ensures x == [] ==> r == None
    ensures x != [] ==> match r
      case Some(j) => OccursAt(x, y, j) && NoneBefore(x, y, j)
      case None => forall i: nat :: !OccursAt(x, y, i)
  {
    var n, m := |y|, |x|;
    if m > n || m == 0 || n == 0 {
      return None;
    }
    var j := 0;
    if m != 1 {
      var k, l := 1, 2;
      if x[0] == x[1] {
        k, l := 2, 1;
      }
      while j <= n - m
        invariant NoneBefore(x, y, j)
      {
        OccursByParts(x, y, j);
        if x[1] != y[j + 1] {
          if k == 2 {
            SkipTwo(x, y, j);
          }
          j := j + k;
        } else {
          var d := MemCmp(x[2..], y[j + 2..], m - 2);
          assert x[2..][..m - 2] == x[2..];
          assert y[j + 2..][..m - 2] == y[j + 2..j + m];
          if d == 0 && x[0] == y[j] {
            return Some(j);
          }
          if l == 2 {
            SkipTwo(x, y, j);
          }
          j := j + l;
        }
      }
    } else {
      while j < n
        invariant j <= n && NoneBefore(x, y, j)
      {
        if y[j] == x[0] {
          assert y[j..j + 1] == x;
          return Some(j);
        }
        assert y[j..j + 1][0] != x[0];
        j := j + 1;
      }
    }
    return None;
  }
}

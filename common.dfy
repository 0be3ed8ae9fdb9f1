/** Values and small numeric helpers shared by the whole model. */
module Common {

  datatype Option<T> = None | Some(value: T)

  /** One 8-bit sample, as numpy's uint8 and PIL's "RGB" mode store it. */
  type Byte = x: int | 0 <= x <= 255

  /** Every row of a row-major plane has the same length, as for a numpy array. */
  predicate Rectangular<T>(rows: seq<seq<T>>) {
    forall i, j :: 0 <= i < |rows| && 0 <= j < |rows| ==> |rows[i]| == |rows[j]|
  }

  /** Width of a plane: the length of its rows (0 for a plane without rows). */
  function Width<T>(rows: seq<seq<T>>): nat {
    if |rows| == 0 then 0 else |rows[0]|
  }

  /** Two planes with the same number of rows and the same row lengths. */
  predicate SameShape<S, T>(a: seq<seq<S>>, b: seq<seq<T>>) {
    |a| == |b| && forall i :: 0 <= i < |a| ==> |a[i]| == |b[i]|
  }

  /** Python's int() of a float: truncation toward zero. */
  function Trunc(r: real): (n: int)
    ensures 0.0 <= r ==> n as real <= r < n as real + 1.0
    ensures r < 0.0 ==> r <= n as real < r + 1.0
  {
    if r >= 0.0 then r.Floor else -((-r).Floor)
  }

  /** np.clip(v, 0, 255) followed by astype(np.uint8). */
  function ClipToByte(v: real): (b: Byte)
    ensures v <= 0.0 ==> b == 0
    ensures 255.0 <= v ==> b == 255
    ensures 0.0 <= v <= 255.0 ==> b as real <= v < b as real + 1.0
  {
    if v < 0.0 then 0 else if v > 255.0 then 255 else v.Floor
  }

  /** An integral sample already in range passes the clip unchanged. */
  lemma ClipToByteOfByte(x: Byte)
    ensures ClipToByte(x as real) == x
  {
  }

  /** The clip is monotone. */
  lemma ClipToByteMonotone(u: real, v: real)
    requires u <= v
    ensures ClipToByte(u) <= ClipToByte(v)
  {
  }

  /** Python's slice s[:n], including a negative n that counts from the end. */
  function PyPrefix<T>(s: seq<T>, n: int): (r: seq<T>)
    ensures 0 <= n ==> |r| == if n <= |s| then n else |s|
    ensures n < 0 ==> |r| == if -n <= |s| then |s| + n else 0
    ensures r == s[..|r|]
  {
    if 0 <= n then (if n <= |s| then s[..n] else s)
    else if -n <= |s| then s[..|s| + n] else []
  }

  /** Sum of integer samples. */
  function Sum(s: seq<int>): int {
    if s == [] then 0 else Sum(s[..|s| - 1]) + s[|s| - 1]
  }

  /** Number of occurrences of x in s. */
  function Count<T(==)>(s: seq<T>, x: T): (n: nat)
    ensures n <= |s|
  {
    if s == [] then 0 else Count(s[..|s| - 1], x) + (if s[|s| - 1] == x then 1 else 0)
  }

  lemma {:induction false} CountIsMultiplicity<T>(s: seq<T>, x: T)
    ensures Count(s, x) == multiset(s)[x]
  {
    if s != [] {
      CountIsMultiplicity(s[..|s| - 1], x);
      assert s == s[..|s| - 1] + [s[|s| - 1]];
    }
  }

  /** Two positions that differ from x leave at most |s| - 2 occurrences of x. */
  lemma {:induction false} CountWithTwoOthers<T>(s: seq<T>, x: T, i: nat, j: nat)
    requires i < j < |s| && s[i] != x && s[j] != x
    ensures Count(s, x) <= |s| - 2
  {
    var n := |s| - 1;
    if j == n {
      CountWithOneOther(s[..n], x, i);
    } else {
      CountWithTwoOthers(s[..n], x, i, j);
    }
  }

  lemma {:induction false} CountWithOneOther<T>(s: seq<T>, x: T, i: nat)
    requires i < |s| && s[i] != x
    ensures Count(s, x) <= |s| - 1
  {
    var n := |s| - 1;
    if i < n {
      CountWithOneOther(s[..n], x, i);
    }
  }

  /** Count of a concatenation. */
  lemma {:induction false} CountAppend<T>(a: seq<T>, b: seq<T>, x: T)
    ensures Count(a + b, x) == Count(a, x) + Count(b, x)
  {
    CountIsMultiplicity(a + b, x);
    CountIsMultiplicity(a, x);
    CountIsMultiplicity(b, x);
  }

  /** The elements of a sequence are pairwise distinct. */
  predicate NoDuplicates<T(==)>(s: seq<T>) {
    forall i, j :: 0 <= i < j < |s| ==> s[i] != s[j]
  }

  /** A permutation of a duplicate-free sequence is duplicate-free. */
  lemma DistinctStaysDistinct<T>(s: seq<T>, d: seq<T>, i: int, j: int)
    requires NoDuplicates(s) && multiset(d) == multiset(s)
    requires 0 <= i < j < |d|
    ensures d[i] != d[j]
  {
    CountIsMultiplicity(s, d[i]);
    CountAtMostOne(s, d[i]);
    TwoOccurrences(d, i, j);
  }

  lemma TwoOccurrences<T>(d: seq<T>, i: int, j: int)
    requires 0 <= i < j < |d|
    ensures d[i] == d[j] ==> multiset(d)[d[i]] >= 2
  {
    assert d == d[..j] + [d[j]] + d[j + 1..];
    assert d[..j][i] == d[i];
    assert d[i] in multiset(d[..j]);
  }

  lemma {:induction false} CountAtMostOne<T>(s: seq<T>, x: T)
    requires NoDuplicates(s)
    ensures Count(s, x) <= 1
  {
    if s != [] {
      var n := |s| - 1;
      assert NoDuplicates(s[..n]);
      CountAtMostOne(s[..n], x);
      if s[n] == x {
        assert x !in s[..n];
        CountIsMultiplicity(s[..n], x);
      }
    }
  }

  // ------------------------------------------------------------- paths

  /** str.rfind: the last position of ch in s, or -1. */
  function RFind(s: string, ch: char): (i: int)
    ensures -1 <= i < |s|
    ensures 0 <= i ==> s[i] == ch && forall j :: i < j < |s| ==> s[j] != ch
    ensures i == -1 ==> forall j :: 0 <= j < |s| ==> s[j] != ch
  {
    if |s| == 0 then -1
    else if s[|s| - 1] == ch then |s| - 1
    else RFind(s[..|s| - 1], ch)
  }

  /** Appending text without ch leaves the last ch where it was. */
  lemma {:induction false} RFindPastFreeText(a: string, b: string, ch: char)
    requires forall k :: 0 <= k < |b| ==> b[k] != ch
    ensures RFind(a + b, ch) == RFind(a, ch)
  {
    if b == [] {
      assert a + b == a;
    } else {
      var n := |b| - 1;
      assert (a + b)[..|a + b| - 1] == a + b[..n];
      RFindPastFreeText(a, b[..n], ch);
    }
  }

  /** Path.name: the text after the last '/'. */
  function FileName(path: string): string {
    path[RFind(path, '/') + 1..]
  }

  /** Path.suffix: from the last '.' of the name, provided that dot is
      neither the name's first nor its last character; otherwise empty. */
  function Suffix(path: string): string {
    var name := FileName(path);
    var i := RFind(name, '.');
    if 0 < i < |name| - 1 then name[i..] else ""
  }

  /** str.lower on ASCII letters. */
  function Lower(s: string): (r: string)
    ensures |r| == |s|
  {
    seq(|s|, i requires 0 <= i < |s| => if 'A' <= s[i] <= 'Z' then (s[i] as int + 32) as char else s[i])
  }

  /** The suffix of dir/stem.ext, for a non-empty stem and a non-empty
      extension without '.' or '/', is ".ext", whatever the directory. */
  lemma SuffixOfFile(dir: string, stem: string, ext: string)
    requires |stem| > 0 && '/' !in stem
    requires |ext| > 0 && '/' !in ext && '.' !in ext
    ensures Suffix(dir + "/" + stem + "." + ext) == "." + ext
  {
    var rest := stem + "." + ext;
    assert dir + "/" + stem + "." + ext == (dir + "/") + rest;
    assert forall k :: 0 <= k < |rest| ==> rest[k] != '/' by {
      forall k | 0 <= k < |rest|
        ensures rest[k] != '/'
      {
        if k < |stem| {
          assert rest[k] == stem[k];
        } else if k > |stem| {
          assert rest[k] == ext[k - |stem| - 1];
        }
      }
    }
    FileNameAfterSlash(dir, rest);
    assert forall k :: 0 <= k < |ext| ==> ext[k] != '.';
    RFindPastFreeText(stem + ".", ext, '.');
    assert rest == (stem + ".") + ext;
    assert rest[|stem|..] == "." + ext;
  }

  /** The file name of dir/rest, for a rest without '/', is rest. */
  lemma FileNameAfterSlash(dir: string, rest: string)
    requires forall k :: 0 <= k < |rest| ==> rest[k] != '/'
    ensures FileName((dir + "/") + rest) == rest
  {
    RFindPastFreeText(dir + "/", rest, '/');
    assert ((dir + "/") + rest)[|dir| + 1..] == rest;
  }
}

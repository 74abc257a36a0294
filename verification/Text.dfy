// String operations the service relies on: splitting, joining, searching, trimming, ordering.
module Text {

  // ---- Splitting on a separator ----

  function FirstChar(s: string, c: char): (k: nat)
    ensures k <= |s|
    ensures k < |s| ==> s[k] == c
    ensures forall j :: 0 <= j < k ==> s[j] != c
  {
    if s == [] || s[0] == c then 0 else 1 + FirstChar(s[1..], c)
  }

  // All pieces, as many as there are separators plus one.
  function Split(s: string, sep: char): (r: seq<string>)
    ensures |r| > 0
    decreases |s|
  {
    var k := FirstChar(s, sep);
    if k == |s| then [s] else [s[..k]] + Split(s[k + 1..], sep)
  }

  // At most n pieces; the last one keeps the remaining separators.
  function SplitN(s: string, sep: char, n: nat): (r: seq<string>)
    requires n > 0
    decreases n
  {
    var k := FirstChar(s, sep);
    if n == 1 || k == |s| then [s] else [s[..k]] + SplitN(s[k + 1..], sep, n - 1)
  }

  function Join(parts: seq<string>, sep: char): string {
    if parts == [] then ""
    else if |parts| == 1 then parts[0]
    else parts[0] + [sep] + Join(parts[1..], sep)
  }

  lemma FirstCharAfter(a: string, rest: string, sep: char)
    requires sep !in a
    ensures FirstChar(a + [sep] + rest, sep) == |a| && FirstChar(a, sep) == |a|
    ensures (a + [sep] + rest)[..|a|] == a && (a + [sep] + rest)[|a| + 1..] == rest
  {
    var s := a + [sep] + rest;
    assert s[|a|] == sep && forall j :: 0 <= j < |a| ==> s[j] == a[j];
  }

  lemma SplitHead(a: string, rest: string, sep: char)
    requires sep !in a
    ensures Split(a + [sep] + rest, sep) == [a] + Split(rest, sep)
    ensures Split(a, sep) == [a]
  {
    FirstCharAfter(a, rest, sep);
  }

  lemma SplitNHead(a: string, rest: string, sep: char, n: nat)
    requires sep !in a && n > 1
    ensures SplitN(a + [sep] + rest, sep, n) == [a] + SplitN(rest, sep, n - 1)
  {
    FirstCharAfter(a, rest, sep);
  }

  lemma {:induction false} SplitOfJoin(parts: seq<string>, sep: char)
    requires parts != [] && forall k :: 0 <= k < |parts| ==> sep !in parts[k]
    ensures Split(Join(parts, sep), sep) == parts
  {
    if |parts| == 1 {
      SplitHead(parts[0], "", sep);
    } else {
      SplitOfJoin(parts[1..], sep);
      SplitHead(parts[0], Join(parts[1..], sep), sep);
    }
  }

  lemma Regroup<T>(x: seq<T>, y: seq<T>, z: seq<T>)
    ensures (x + y) + z == x + (y + z)
  {
  }

  lemma SplitTwoHeads(a: string, b: string, rest: string, sep: char)
    requires sep !in a && sep !in b
    ensures Split(a + [sep] + b + [sep] + rest, sep) == [a, b] + Split(rest, sep)
    ensures SplitN(a + [sep] + b + [sep] + rest, sep, 3) == [a, b, rest]
  {
    var x, tail := a + [sep], b + [sep] + rest;
    Regroup(x, b, [sep]);
    Regroup(x, b + [sep], rest);
    SplitSecond(a, b, rest, sep, tail);
  }

  lemma SplitSecond(a: string, b: string, rest: string, sep: char, tail: string)
    requires sep !in a && sep !in b && tail == b + [sep] + rest
    ensures Split(a + [sep] + tail, sep) == [a, b] + Split(rest, sep)
    ensures SplitN(a + [sep] + tail, sep, 3) == [a, b, rest]
  {
    SplitHead(a, tail, sep);
    SplitHead(b, rest, sep);
    SplitNHead(a, tail, sep, 3);
    SplitNHead(b, rest, sep, 2);
    Chain(Split(a + [sep] + tail, sep), Split(tail, sep), Split(rest, sep), a, b);
    Chain(SplitN(a + [sep] + tail, sep, 3), SplitN(tail, sep, 2), SplitN(rest, sep, 1), a, b);
  }

  lemma Chain(x: seq<string>, y: seq<string>, z: seq<string>, a: string, b: string)
    requires x == [a] + y && y == [b] + z
    ensures x == [a, b] + z
  {
  }

  // ---- Substring search ----

  predicate OccursAt(s: string, pat: string, i: int) {
    0 <= i && i + |pat| <= |s| && s[i..i + |pat|] == pat
  }

  // First position of pat in s, or -1.
  function Index(s: string, pat: string): (r: int)
    ensures r >= 0 ==> OccursAt(s, pat, r)
    ensures forall i :: OccursAt(s, pat, i) ==> 0 <= r <= i
  {
    IndexFrom(s, pat, 0)
  }

  function IndexFrom(s: string, pat: string, from: nat): (r: int)
    ensures r >= 0 ==> r >= from && OccursAt(s, pat, r)
    ensures forall i :: OccursAt(s, pat, i) && i >= from ==> 0 <= r <= i
    decreases |s| - from
  {
    if from + |pat| > |s| then -1
    else if OccursAt(s, pat, from) then from
    else if from == |s| then -1
    else IndexFrom(s, pat, from + 1)
  }

  predicate Contains(s: string, pat: string) {
    Index(s, pat) >= 0
  }

  // ---- Trimming ----

  // White space as Unicode defines it.
  predicate IsSpace(c: char) {
    || '\U{9}' <= c <= '\U{d}' || c == ' ' || c == '\U{85}' || c == '\U{a0}' || c == '\U{1680}'
    || '\U{2000}' <= c <= '\U{200a}' || c == '\U{2028}' || c == '\U{2029}' || c == '\U{202f}'
    || c == '\U{205f}' || c == '\U{3000}'
  }

  function TrimLeft(s: string): (r: string)
    ensures |r| <= |s|
    ensures r == "" || !IsSpace(r[0])
    ensures s == "" || !IsSpace(s[0]) ==> r == s
  {
    if s != "" && IsSpace(s[0]) then TrimLeft(s[1..]) else s
  }

  function TrimRight(s: string): (r: string)
    ensures |r| <= |s| && r == s[..|r|]
    ensures r == "" || !IsSpace(r[|r| - 1])
    ensures s == "" || !IsSpace(s[|s| - 1]) ==> r == s
  {
    if s != "" && IsSpace(s[|s| - 1]) then TrimRight(s[..|s| - 1]) else s
  }

  function Trim(s: string): (r: string)
    ensures Trimmed(r) && |r| <= |s|
    ensures Trimmed(s) ==> r == s
  {
    TrimRight(TrimLeft(s))
  }

  predicate Trimmed(s: string) {
    s == "" || (!IsSpace(s[0]) && !IsSpace(s[|s| - 1]))
  }

  lemma {:induction false} TrimLeftBlank(s: string)
    ensures TrimLeft(s) == "" <==> forall c :: c in s ==> IsSpace(c)
  {
    if s != "" {
      assert forall c :: c in s <==> c == s[0] || c in s[1..];
      TrimLeftBlank(s[1..]);
    }
  }

  // Trimming leaves nothing of a text exactly when it is all white space.
  lemma {:induction false} TrimBlank(s: string)
    ensures Trim(s) == "" <==> forall c :: c in s ==> IsSpace(c)
  {
    TrimLeftBlank(s);
    if TrimLeft(s) != "" {
      TrimRightKeeps(TrimLeft(s));
    }
  }

  lemma {:induction false} TrimRightKeeps(s: string)
    requires s != "" && !IsSpace(s[0])
    ensures TrimRight(s) != ""
  {
    if |s| > 1 && IsSpace(s[|s| - 1]) {
      TrimRightKeeps(s[..|s| - 1]);
    }
  }

  lemma TrimPadded(s: string)
    requires Trimmed(s)
    ensures Trim(s + " ") == s && Trim(" " + s) == s
  {
    assert (" " + s)[1..] == s;
    assert TrimLeft(" " + s) == TrimLeft(s);
    if s == "" {
      assert TrimLeft(" ") == TrimLeft(" "[1..]);
    } else {
      assert (s + " ")[..|s|] == s;
      assert TrimLeft(s + " ") == s + " ";
    }
  }

  // ---- Lexicographic order by code point ----

  predicate Less(a: string, b: string) {
    if b == "" then false
    else if a == "" then true
    else a[0] < b[0] || (a[0] == b[0] && Less(a[1..], b[1..]))
  }

  lemma {:induction false} LessTotal(a: string, b: string)
    ensures !(Less(a, b) && Less(b, a))
    ensures Less(a, b) ==> a != b
    ensures Less(a, b) || Less(b, a) || a == b
  {
    if a != "" && b != "" && a[0] == b[0] {
      LessTotal(a[1..], b[1..]);
      assert a == [a[0]] + a[1..] && b == [b[0]] + b[1..];
    }
  }

  // The order in its own terms: a is a proper beginning of b, or smaller at the first place where they differ.
  ghost predicate Before(a: string, b: string) {
    exists k: nat :: k <= |a| && k < |b| && a[..k] == b[..k] && (k == |a| || a[k] < b[k])
  }

  lemma {:induction false} LessIsBefore(a: string, b: string)
    ensures Less(a, b) <==> Before(a, b)
  {
    if a == "" {
      if b != "" {
        assert a[..0] == b[..0];
      }
    } else if b != "" {
      LessIsBefore(a[1..], b[1..]);
      if a[0] == b[0] && Before(a[1..], b[1..]) {
        var k: nat :|
          k <= |a| - 1 && k < |b| - 1 && a[1..][..k] == b[1..][..k] && (k == |a| - 1 || a[1..][k] < b[1..][k]);
        assert a[..k + 1] == [a[0]] + a[1..][..k] && b[..k + 1] == [b[0]] + b[1..][..k];
        assert a[..k + 1] == b[..k + 1];
      } else if a[0] < b[0] {
        assert a[..0] == b[..0];
      }
      if k: nat :| k <= |a| && k < |b| && a[..k] == b[..k] && (k == |a| || a[k] < b[k]) {
        if k > 0 {
          assert a[0] == a[..k][0] && b[0] == b[..k][0];
          assert a[1..][..k - 1] == a[..k][1..] && b[1..][..k - 1] == b[..k][1..];
        }
      }
    }
  }
}

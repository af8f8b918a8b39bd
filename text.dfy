/**
 * The string operations the breed catalog and the formatters use, restricted
 * to ASCII: case mapping, whitespace stripping, single-character replacement,
 * `str.join`, substring presence and Python's ordering of strings (by code
 * point, a proper prefix first) with the sort built on it.
 */
module Text {

  // ---------------------------------------------------------------- characters

  predicate IsUpper(c: char) { 'A' <= c <= 'Z' }

  predicate IsLower(c: char) { 'a' <= c <= 'z' }

  /** The cased characters of ASCII. */
  predicate IsLetter(c: char) { IsUpper(c) || IsLower(c) }

  /**
   * Python's `str.isspace` on ASCII: tab, line feed, vertical tab, form feed,
   * carriage return, the separators 0x1C to 0x1F, and the space.
   */
  predicate IsSpace(c: char) {
    c == ' ' || 9 <= c as int <= 13 || 28 <= c as int <= 31
  }

  function ToLowerChar(c: char): (d: char)
    ensures !IsUpper(d)
    ensures IsLetter(d) <==> IsLetter(c)
    ensures !IsUpper(c) ==> d == c
    ensures IsUpper(c) ==> d as int == c as int + 32
  {
    if IsUpper(c) then (c as int - 'A' as int + 'a' as int) as char else c
  }

  function ToUpperChar(c: char): (d: char)
    ensures !IsLower(d)
    ensures IsLetter(d) <==> IsLetter(c)
    ensures !IsLower(c) ==> d == c
  {
    if IsLower(c) then (c as int - 'a' as int + 'A' as int) as char else c
  }

  // ---------------------------------------------------------------- str methods

  /** `s.lower()` on ASCII: every letter lower case, everything else kept. */
  function Lower(s: string): (r: string)
    ensures |r| == |s|
    ensures forall i :: 0 <= i < |r| ==> !IsUpper(r[i])
    ensures forall i :: 0 <= i < |s| && !IsUpper(s[i]) ==> r[i] == s[i]
    ensures forall i :: 0 <= i < |s| && IsUpper(s[i]) ==> r[i] as int == s[i] as int + 32
  {
    seq(|s|, i requires 0 <= i < |s| => ToLowerChar(s[i]))
  }

  /** Lower-casing commutes with concatenation. */
  lemma LowerConcat(a: string, b: string)
    ensures Lower(a + b) == Lower(a) + Lower(b)
  {
  }

  /** A string with no upper-case letter is its own lower case. */
  lemma LowerUnchanged(s: string)
    requires forall i :: 0 <= i < |s| ==> !IsUpper(s[i])
    ensures Lower(s) == s
  {
  }

  /** The first index from `i` on that does not hold whitespace (or `|s|`). */
  function SkipSpace(s: string, i: nat): (r: nat)
    requires i <= |s|
    ensures i <= r <= |s|
    ensures forall k :: i <= k < r ==> IsSpace(s[k])
    ensures r == |s| || !IsSpace(s[r])
    decreases |s| - i
  {
    if i < |s| && IsSpace(s[i]) then SkipSpace(s, i + 1) else i
  }

  /** The end of `s[lo..hi]` once its trailing whitespace is dropped. */
  function TrimSpace(s: string, lo: nat, hi: nat): (r: nat)
    requires lo <= hi <= |s|
    ensures lo <= r <= hi
    ensures forall k :: r <= k < hi ==> IsSpace(s[k])
    ensures r == lo || !IsSpace(s[r - 1])
  {
    if lo < hi && IsSpace(s[hi - 1]) then TrimSpace(s, lo, hi - 1) else hi
  }

  /** The number of whitespace characters `s` starts with. */
  function LeadingSpace(s: string): nat
    ensures LeadingSpace(s) <= |s|
  {
    SkipSpace(s, 0)
  }

  /**
   * `s.strip()`: `s` without its leading and trailing whitespace, that is, the
   * slice of `s` after its leading whitespace outside of which there is only
   * whitespace and whose ends are not whitespace.
   */
  function Strip(s: string): (r: string)
    ensures |r| <= |s|
    ensures IsStrippedAt(s, r, LeadingSpace(s))
    ensures r == [] || (!IsSpace(r[0]) && !IsSpace(r[|r| - 1]))
  {
    var i := SkipSpace(s, 0);
    var j := TrimSpace(s, i, |s|);
    s[i..j]
  }

  /** `r` is the slice of `s` at offset `i`, with only whitespace around it. */
  predicate IsStrippedAt(s: string, r: string, i: int) {
    && 0 <= i <= |s| - |r|
    && r == s[i..i + |r|]
    && (forall k :: 0 <= k < i ==> IsSpace(s[k]))
    && (forall k :: i + |r| <= k < |s| ==> IsSpace(s[k]))
  }

  /** Stripping keeps a string free of upper-case letters. */
  lemma StripNoUpper(s: string)
    requires forall i :: 0 <= i < |s| ==> !IsUpper(s[i])
    ensures forall i :: 0 <= i < |Strip(s)| ==> !IsUpper(Strip(s)[i])
  {
    var t := Strip(s);
    var j := LeadingSpace(s);
    forall i | 0 <= i < |t| ensures !IsUpper(t[i]) {
      assert t[i] == s[j + i];
    }
  }

  /** Stripping a string whose ends are not whitespace leaves it unchanged. */
  lemma StripUnchanged(s: string)
    requires s == [] || (!IsSpace(s[0]) && !IsSpace(s[|s| - 1]))
    ensures Strip(s) == s
  {
  }

  /** `s.replace(a, b)` for one-character strings `a` and `b`. */
  function ReplaceChar(s: string, a: char, b: char): (r: string)
    ensures |r| == |s|
    ensures forall i :: 0 <= i < |s| ==> r[i] == if s[i] == a then b else s[i]
  {
    seq(|s|, i requires 0 <= i < |s| => if s[i] == a then b else s[i])
  }

  /** Replacing a character that does not occur changes nothing. */
  lemma ReplaceUnchanged(s: string, a: char, b: char)
    requires a !in s
    ensures ReplaceChar(s, a, b) == s
  {
  }

  /**
   * `s.title()` on ASCII: a letter is upper case when the character before it
   * is not a letter (or there is none), lower case otherwise.
   */
  function Title(s: string): (r: string)
    ensures |r| == |s|
  {
    seq(|s|, i requires 0 <= i < |s| =>
      if i == 0 || !IsLetter(s[i - 1]) then ToUpperChar(s[i]) else ToLowerChar(s[i]))
  }

  /** A single lower-case word is title-cased by raising its first letter only. */
  lemma TitleWord(s: string)
    requires |s| > 0 && forall i :: 0 <= i < |s| ==> IsLower(s[i])
    ensures Title(s) == [ToUpperChar(s[0])] + s[1..]
  {
    forall i | 1 <= i < |s| ensures Title(s)[i] == s[i] {
      assert IsLetter(s[i - 1]);
    }
  }

  /** `sep.join(parts)`. */
  function Join(parts: seq<string>, sep: string): string
  {
    if |parts| == 0 then ""
    else if |parts| == 1 then parts[0]
    else Join(parts[..|parts| - 1], sep) + sep + parts[|parts| - 1]
  }

  /** The concatenation of the parts, in order. */
  function Concat<T>(parts: seq<seq<T>>): seq<T> {
    if parts == [] then [] else Concat(parts[..|parts| - 1]) + parts[|parts| - 1]
  }

  lemma ConcatSnoc<T>(parts: seq<seq<T>>, p: seq<T>)
    ensures Concat(parts + [p]) == Concat(parts) + p
  {
    assert (parts + [p])[..|parts|] == parts;
  }

  /** Parts of four elements each lie four apart in their concatenation. */
  lemma {:induction false} ConcatFours<T>(parts: seq<seq<T>>)
    requires forall k :: 0 <= k < |parts| ==> |parts[k]| == 4
    ensures |Concat(parts)| == 4 * |parts|
    ensures forall k :: 0 <= k < |parts| ==> Concat(parts)[4 * k..4 * k + 4] == parts[k]
  {
    if parts != [] {
      var init := parts[..|parts| - 1];
      var last := parts[|parts| - 1];
      ConcatFours(init);
      var prev := Concat(init);
      forall k | 0 <= k < |parts| ensures (prev + last)[4 * k..4 * k + 4] == parts[k] {
        if k < |init| {
          assert (prev + last)[4 * k..4 * k + 4] == prev[4 * k..4 * k + 4];
        } else {
          assert (prev + last)[4 * k..4 * k + 4] == last;
        }
      }
    }
  }

  /**
   * A first and a last element around parts of four: each part sits at
   * the four positions after the previous one.
   */
  lemma FramedFours<T>(first: T, parts: seq<seq<T>>, last: T)
    requires forall k :: 0 <= k < |parts| ==> |parts[k]| == 4
    ensures |[first] + Concat(parts) + [last]| == 4 * |parts| + 2
    ensures ([first] + Concat(parts) + [last])[0] == first
    ensures ([first] + Concat(parts) + [last])[4 * |parts| + 1] == last
    ensures forall k :: 0 <= k < |parts| ==>
      ([first] + Concat(parts) + [last])[1 + 4 * k] == parts[k][0] &&
      ([first] + Concat(parts) + [last])[2 + 4 * k..5 + 4 * k] == parts[k][1..]
  {
    ConcatFours(parts);
    var body := Concat(parts);
    var all := [first] + body + [last];
    forall k | 0 <= k < |parts|
      ensures all[1 + 4 * k] == parts[k][0] && all[2 + 4 * k..5 + 4 * k] == parts[k][1..]
    {
      assert all[1 + 4 * k..5 + 4 * k] == body[4 * k..4 * k + 4];
    }
  }

  // ---------------------------------------------------------------- substrings

  /** Python's `t in s` for strings. */
  ghost predicate Contains(s: string, t: string) {
    exists i :: OccursAt(s, t, i)
  }

  /** `t` occurs in `s` starting at index `i`. */
  predicate OccursAt(s: string, t: string, i: int) {
    0 <= i <= |s| - |t| && s[i..i + |t|] == t
  }

  lemma ContainsInfix(a: string, t: string, b: string)
    ensures Contains(a + t + b, t)
  {
    var s := a + t + b;
    assert s[|a|..|a| + |t|] == t;
    assert OccursAt(s, t, |a|);
  }

  lemma ContainsExtend(s: string, t: string, u: string)
    requires Contains(s, t)
    ensures Contains(s + u, t) && Contains(u + s, t)
  {
    var i :| OccursAt(s, t, i);
    assert (s + u)[i..i + |t|] == t;
    assert OccursAt(s + u, t, i);
    assert (u + s)[|u| + i..|u| + i + |t|] == t;
    assert OccursAt(u + s, t, |u| + i);
  }

  /** A substring without upper-case letters survives lower-casing, as `t in s.lower()`. */
  lemma ContainsLower(s: string, t: string)
    requires Contains(s, t)
    requires forall i :: 0 <= i < |t| ==> !IsUpper(t[i])
    ensures Contains(Lower(s), t)
  {
    var i :| OccursAt(s, t, i);
    LowerUnchanged(t);
    assert Lower(s)[i..i + |t|] == Lower(t);
    assert OccursAt(Lower(s), t, i);
  }

  /** A substring of a substring is a substring. */
  lemma ContainsTransitive(s: string, t: string, u: string)
    requires Contains(s, t) && Contains(t, u)
    ensures Contains(s, u)
  {
    var i :| OccursAt(s, t, i);
    var j :| OccursAt(t, u, j);
    assert s[i..i + |t|] == t && t[j..j + |u|] == u;
    forall p | 0 <= p < |u| ensures s[i + j..i + j + |u|][p] == u[p] {
      assert s[i + j + p] == s[i..i + |t|][j + p] == t[j + p] == t[j..j + |u|][p];
    }
    assert s[i + j..i + j + |u|] == u;
    assert OccursAt(s, u, i + j);
  }

  /** Every part of a join occurs in it. */
  lemma {:induction false} JoinContainsPart(parts: seq<string>, sep: string, k: nat)
    requires k < |parts|
    ensures Contains(Join(parts, sep), parts[k])
  {
    if |parts| == 1 {
      ContainsInfix("", parts[0], "");
      assert Join(parts, sep) == "" + parts[0] + "";
    } else if k == |parts| - 1 {
      ContainsInfix(Join(parts[..|parts| - 1], sep) + sep, parts[k], "");
      assert Join(parts, sep) == Join(parts[..|parts| - 1], sep) + sep + parts[k] + "";
    } else {
      var init := parts[..|parts| - 1];
      JoinContainsPart(init, sep, k);
      assert init[k] == parts[k];
      ContainsExtend(Join(init, sep), parts[k], sep + parts[|parts| - 1]);
      assert Join(parts, sep) == Join(init, sep) + (sep + parts[|parts| - 1]);
    }
  }

  /** Joining a non-empty list with one more part appends the separator and that part. */
  lemma JoinSnoc(parts: seq<string>, p: string, sep: string)
    requires parts != []
    ensures Join(parts + [p], sep) == Join(parts, sep) + sep + p
  {
    assert (parts + [p])[..|parts|] == parts;
  }

  // ---------------------------------------------------------------- ordering

  /** Python's `a <= b` on strings: lexicographic by code point, a prefix first. */
  predicate StrLe(a: string, b: string) {
    if a == [] then true
    else if b == [] then false
    else if a[0] != b[0] then a[0] < b[0]
    else StrLe(a[1..], b[1..])
  }

  lemma {:induction false} StrLeReflexive(a: string)
    ensures StrLe(a, a)
  {
    if a != [] { StrLeReflexive(a[1..]); }
  }

  lemma {:induction false} StrLeTotal(a: string, b: string)
    ensures StrLe(a, b) || StrLe(b, a)
  {
    if a != [] && b != [] && a[0] == b[0] {
      StrLeTotal(a[1..], b[1..]);
    }
  }

  lemma {:induction false} StrLeAntisymmetric(a: string, b: string)
    requires StrLe(a, b) && StrLe(b, a)
    ensures a == b
  {
    if a != [] && b != [] {
      StrLeAntisymmetric(a[1..], b[1..]);
      assert a == [a[0]] + a[1..] && b == [b[0]] + b[1..];
    }
  }

  lemma {:induction false} StrLeTransitive(a: string, b: string, c: string)
    requires StrLe(a, b) && StrLe(b, c)
    ensures StrLe(a, c)
  {
    if a != [] && b != [] && c != [] && a[0] == b[0] == c[0] {
      StrLeTransitive(a[1..], b[1..], c[1..]);
    }
  }

  /** Ascending in Python's `<=`, as `sorted` leaves a list. */
  predicate Sorted(s: seq<string>) {
    forall i, j :: 0 <= i < j < |s| ==> InOrder(s, i, j)
  }

  /** The elements at `i` and `j` are in order. */
  predicate InOrder(s: seq<string>, i: int, j: int)
    requires 0 <= i < |s| && 0 <= j < |s|
  {
    StrLe(s[i], s[j])
  }

  /** Putting in front of a sorted list a string that is at most each of its elements keeps it sorted. */
  lemma ConsSorted(h: string, t: seq<string>)
    requires Sorted(t)
    requires forall j :: 0 <= j < |t| ==> StrLe(h, t[j])
    ensures Sorted([h] + t)
  {
    var r := [h] + t;
    forall i, j | 0 <= i < j < |r| ensures InOrder(r, i, j) {
      if i > 0 {
        assert InOrder(t, i - 1, j - 1);
      }
    }
  }

  /** The head of a sorted list that `x` exceeds bounds the rest of the list with `x` inserted. */
  lemma InsertHeadBound(x: string, s: seq<string>, rest: seq<string>)
    requires Sorted(s) && s != [] && !StrLe(x, s[0])
    requires multiset(rest) == multiset(s[1..]) + multiset{x}
    ensures forall j :: 0 <= j < |rest| ==> StrLe(s[0], rest[j])
  {
    StrLeTotal(x, s[0]);
    assert s == [s[0]] + s[1..];
    forall j | 0 <= j < |rest| ensures StrLe(s[0], rest[j]) {
      assert rest[j] in multiset(rest);
      if rest[j] != x {
        SortedHeadIsLeast(s, rest[j]);
      }
    }
  }

  /** Inserts `x` into the sorted `s` before the first element it does not exceed. */
  function Insert(x: string, s: seq<string>): (r: seq<string>)
    requires Sorted(s)
    ensures Sorted(r)
    ensures multiset(r) == multiset(s) + multiset{x}
  {
    if s == [] then [x]
    else if StrLe(x, s[0]) then
      assert forall j :: 0 <= j < |s| ==> StrLe(x, s[j]) by {
        forall j | 0 <= j < |s| ensures StrLe(x, s[j]) {
          if j > 0 {
            assert InOrder(s, 0, j);
            StrLeTransitive(x, s[0], s[j]);
          }
        }
      }
      ConsSorted(x, s);
      [x] + s
    else
      SortedTail(s);
      var rest := Insert(x, s[1..]);
      InsertHeadBound(x, s, rest);
      ConsSorted(s[0], rest);
      assert s == [s[0]] + s[1..];
      [s[0]] + rest
  }

  /** Python's `sorted` on a list of strings (an insertion sort). */
  function SortStrings(s: seq<string>): (r: seq<string>)
    ensures Sorted(r)
    ensures multiset(r) == multiset(s)
  {
    if s == [] then []
    else
      assert s == [s[0]] + s[1..];
      Insert(s[0], SortStrings(s[1..]))
  }

  /** Sorting keeps the length. */
  lemma SortStringsLength(s: seq<string>)
    ensures |SortStrings(s)| == |s|
  {
    assert |SortStrings(s)| == |multiset(SortStrings(s))| == |multiset(s)| == |s|;
  }

  /**
   * A sorted list is determined by its multiset of elements: two sorted
   * arrangements of the same strings are equal.
   */
  lemma {:induction false} SortedUnique(a: seq<string>, b: seq<string>)
    requires Sorted(a) && Sorted(b)
    requires multiset(a) == multiset(b)
    ensures a == b
  {
    if a == [] {
      assert |b| == |multiset(b)| == 0;
    } else {
      assert |b| == |multiset(b)| == |a|;
      SortedHeadIsLeast(a, b[0]);
      SortedHeadIsLeast(b, a[0]);
      StrLeAntisymmetric(a[0], b[0]);
      SortedTail(a);
      SortedTail(b);
      SortedUnique(a[1..], b[1..]);
      assert a == [a[0]] + a[1..] && b == [b[0]] + b[1..];
    }
  }

  /** The tail of a sorted list is sorted and holds the other elements. */
  lemma SortedTail(s: seq<string>)
    requires Sorted(s) && s != []
    ensures Sorted(s[1..])
    ensures multiset(s[1..]) == multiset(s) - multiset{s[0]}
  {
    assert s == [s[0]] + s[1..];
    forall i, j | 0 <= i < j < |s| - 1 ensures InOrder(s[1..], i, j) {
      assert InOrder(s, i + 1, j + 1);
    }
  }

  /** The head of a sorted list is at most any of its elements. */
  lemma SortedHeadIsLeast(s: seq<string>, x: string)
    requires Sorted(s) && x in multiset(s)
    ensures StrLe(s[0], x)
  {
    var i :| 0 <= i < |s| && s[i] == x;
    if i == 0 { StrLeReflexive(x); } else { assert InOrder(s, 0, i); }
  }

  /** `sorted(s)` depends only on the strings in `s`, not on their order. */
  lemma SortStringsPermutationInvariant(s: seq<string>, t: seq<string>)
    requires multiset(s) == multiset(t)
    ensures SortStrings(s) == SortStrings(t)
  {
    SortedUnique(SortStrings(s), SortStrings(t));
  }
}

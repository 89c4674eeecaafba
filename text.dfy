/** String operations the search boxes and facet lists rely on: `toLowerCase` (ASCII only),
    `String.prototype.includes`, and the default `Array.prototype.sort` order on strings. */
module Text {
  import opened Seqs

  predicate IsUpper(c: char)
  {
    'A' <= c <= 'Z'
  }

  function LowerChar(c: char): (r: char)
    ensures !IsUpper(r)
    ensures r == c || (IsUpper(c) && r as int - c as int == 'a' as int - 'A' as int)
  {
    if IsUpper(c) then (c as int + ('a' as int - 'A' as int)) as char else c
  }

  /** `s.toLowerCase()`, restricted to the ASCII letters. */
  function Lower(s: string): (r: string)
    ensures |r| == |s|
    ensures forall i :: 0 <= i < |s| ==> r[i] == LowerChar(s[i])
  {
    seq(|s|, i requires 0 <= i < |s| => LowerChar(s[i]))
  }

  /** Lower-casing twice is lower-casing once; the empty string stays empty. */
  lemma LowerIdempotent(s: string)
    ensures Lower(Lower(s)) == Lower(s)
    ensures Lower(s) == [] <==> s == []
  {
    assert forall i :: 0 <= i < |s| ==> LowerChar(LowerChar(s[i])) == LowerChar(s[i]);
  }

  /** `hay.includes(needle)`: needle occurs in hay at some position. */
  predicate Contains(hay: string, needle: string)
    decreases |hay|
  {
    needle <= hay || (hay != [] && Contains(hay[1..], needle))
  }

  /** needle occurs in hay starting at position i. */
  ghost predicate OccursAt(hay: string, needle: string, i: int)
  {
    0 <= i && i + |needle| <= |hay| && hay[i..i + |needle|] == needle
  }

  /** Contains agrees with the positional definition of a substring. */
  lemma {:induction false} ContainsAt(hay: string, needle: string)
    ensures Contains(hay, needle) <==> exists i :: OccursAt(hay, needle, i)
    decreases |hay|
  {
    if needle <= hay {
      assert OccursAt(hay, needle, 0);
    } else if hay == [] {
    } else {
      ContainsAt(hay[1..], needle);
      assert (exists i :: OccursAt(hay, needle, i)) ==> Contains(hay[1..], needle) by {
        if exists i :: OccursAt(hay, needle, i) {
          var i :| OccursAt(hay, needle, i);
          assert i != 0;
          assert OccursAt(hay[1..], needle, i - 1);
        }
      }
      assert Contains(hay[1..], needle) ==> exists i :: OccursAt(hay, needle, i) by {
        if Contains(hay[1..], needle) {
          var i :| OccursAt(hay[1..], needle, i);
          assert OccursAt(hay, needle, i + 1);
        }
      }
    }
  }

  /** The empty needle occurs in every string, so an empty search box matches everything. */
  lemma ContainsEmpty(hay: string)
    ensures Contains(hay, "")
  {
  }

  /** Case-insensitive search, as the pages write it:
      `field.toLowerCase().includes(term.toLowerCase())`. */
  predicate Matches(field: string, term: string)
  {
    Contains(Lower(field), Lower(term))
  }

  lemma MatchesEmpty(field: string)
    ensures Matches(field, "")
  {
  }

  /** The comparison behind the default `sort()` of strings: lexicographic by character code. */
  predicate Less(a: string, b: string)
    decreases |a|
  {
    if a == [] then b != []
    else if b == [] then false
    else if a[0] != b[0] then a[0] < b[0]
    else Less(a[1..], b[1..])
  }

  lemma {:induction false} LessIrreflexive(a: string)
    ensures !Less(a, a)
  {
    if a != [] {
      LessIrreflexive(a[1..]);
    }
  }

  lemma {:induction false} LessTransitive(a: string, b: string, c: string)
    requires Less(a, b) && Less(b, c)
    ensures Less(a, c)
    decreases |a|
  {
    if a != [] && a[0] == b[0] && b[0] == c[0] {
      LessTransitive(a[1..], b[1..], c[1..]);
    }
  }

  lemma {:induction false} LessTotal(a: string, b: string)
    ensures a == b || Less(a, b) || Less(b, a)
    decreases |a|
  {
    if a != [] && b != [] && a[0] == b[0] {
      LessTotal(a[1..], b[1..]);
      if a[1..] == b[1..] {
        assert a == [a[0]] + a[1..] && b == [b[0]] + b[1..];
      }
    }
  }

  lemma {:induction false} LessAsymmetric(a: string, b: string)
    requires Less(a, b)
    ensures !Less(b, a)
    decreases |a|
  {
    if a != [] && a[0] == b[0] {
      LessAsymmetric(a[1..], b[1..]);
    }
  }

  /** Non-decreasing under Less. */
  ghost predicate Sorted(s: seq<string>)
  {
    forall i, j :: 0 <= i < j < |s| ==> !Less(s[j], s[i])
  }

  /** Strictly increasing under Less: sorted and free of duplicates. */
  ghost predicate Ascending(s: seq<string>)
  {
    forall i, j :: 0 <= i < j < |s| ==> Less(s[i], s[j])
  }

  lemma AscendingDistinct(s: seq<string>)
    requires Ascending(s)
    ensures Distinct(s)
  {
    forall i, j | 0 <= i < j < |s| ensures s[i] != s[j] {
      LessIrreflexive(s[i]);
    }
  }

  /** Whatever is not below s[0] is not below x either, when x is not above s[0]. */
  lemma NotLessThrough(x: string, m: string, y: string)
    requires !Less(m, x) && !Less(y, m)
    ensures !Less(y, x)
  {
    if Less(y, x) {
      LessTotal(m, y);
      if m == y {
      } else if Less(m, y) {
        LessTransitive(m, y, x);
      }
    }
  }

  lemma SortedCons(x: string, s: seq<string>)
    requires Sorted(s)
    requires forall y :: y in s ==> !Less(y, x)
    ensures Sorted([x] + s)
  {
    var r := [x] + s;
    forall i, j | 0 <= i < j < |r| ensures !Less(r[j], r[i]) {
      assert r[j] == s[j - 1];
      if i > 0 { assert r[i] == s[i - 1]; }
    }
  }

  lemma AscendingCons(x: string, s: seq<string>)
    requires Ascending(s)
    requires forall y :: y in s ==> Less(x, y)
    ensures Ascending([x] + s)
  {
    var r := [x] + s;
    forall i, j | 0 <= i < j < |r| ensures Less(r[i], r[j]) {
      assert r[j] == s[j - 1];
      if i > 0 { assert r[i] == s[i - 1]; }
    }
  }

  /** Insert x into a sorted list before the first element not less than x. */
  function Insert(x: string, s: seq<string>): (r: seq<string>)
    ensures multiset(r) == multiset(s) + multiset{x}
  {
    if s == [] then [x]
    else if !Less(s[0], x) then [x] + s
    else
      assert s == [s[0]] + s[1..];
      [s[0]] + Insert(x, s[1..])
  }

  lemma {:induction false} InsertSorted(x: string, s: seq<string>)
    requires Sorted(s)
    ensures Sorted(Insert(x, s))
  {
    if s == [] {
    } else if !Less(s[0], x) {
      forall y | y in s ensures !Less(y, x) {
        var k :| 0 <= k < |s| && s[k] == y;
        if k > 0 { NotLessThrough(x, s[0], y); }
      }
      SortedCons(x, s);
    } else {
      assert Sorted(s[1..]);
      InsertSorted(x, s[1..]);
      var rest := Insert(x, s[1..]);
      forall y | y in rest ensures !Less(y, s[0]) {
        assert y in multiset(rest);
        if y == x {
          LessAsymmetric(s[0], x);
        } else {
          assert y in s[1..];
          var k :| 0 <= k < |s[1..]| && s[1..][k] == y;
          assert s[k + 1] == y;
        }
      }
      SortedCons(s[0], rest);
    }
  }

  lemma {:induction false} InsertAscending(x: string, s: seq<string>)
    requires Ascending(s) && x !in s
    ensures Ascending(Insert(x, s))
  {
    if s == [] {
    } else if !Less(s[0], x) {
      LessTotal(s[0], x);
      forall y | y in s ensures Less(x, y) {
        var k :| 0 <= k < |s| && s[k] == y;
        if k > 0 { LessTransitive(x, s[0], y); }
      }
      AscendingCons(x, s);
    } else {
      assert Ascending(s[1..]);
      InsertAscending(x, s[1..]);
      var rest := Insert(x, s[1..]);
      forall y | y in rest ensures Less(s[0], y) {
        assert y in multiset(rest);
        if y != x {
          assert y in s[1..];
          var k :| 0 <= k < |s[1..]| && s[1..][k] == y;
          assert s[k + 1] == y;
        }
      }
      AscendingCons(s[0], rest);
    }
  }

  /** `Array.prototype.sort()` with no comparator: a sorted permutation of the input. */
  function SortStrings(s: seq<string>): (r: seq<string>)
    ensures multiset(r) == multiset(s)
    ensures |r| == |s|
    ensures Sorted(r)
    ensures Distinct(s) ==> Ascending(r)
  {
    if s == [] then []
    else
      var rest := SortStrings(s[1..]);
      assert s == [s[0]] + s[1..];
      assert Distinct(s) ==> Distinct(s[1..]) && s[0] !in rest by {
        if Distinct(s) {
          assert forall k :: 0 <= k < |s[1..]| ==> s[1..][k] == s[k + 1];
          assert s[0] !in multiset(s[1..]);
        }
      }
      var r := Insert(s[0], rest);
      assert |r| == |multiset(r)| == |multiset(s)| == |s|;
      InsertSorted(s[0], rest);
      assert Distinct(s) ==> Ascending(r) by {
        if Distinct(s) { InsertAscending(s[0], rest); }
      }
      r
  }
}

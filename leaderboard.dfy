/** The leaderboard page (src/pages/Leaderboard.tsx): the alumni sorted by points, highest
    first, with the stable in-place sort of `Array.prototype.sort`; the ranked entries; the
    podium split; and the four stat cards. */
module LeaderboardPage {
  import opened Types
  import opened Seqs
  import opened Roles
  import opened Badges
  import MockData

  /** Points never increase along the list. */
  ghost predicate ByPointsDesc(s: seq<User>)
  {
    forall i, j :: 0 <= i < j < |s| ==> s[i].points >= s[j].points
  }

  function HasPoints(v: int): User -> bool
  {
    (u: User) => u.points == v
  }

  /** Insert `u` right after the last element that has at least its points: the comparator
      `(a, b) => b.points - a.points` with ties left in place. */
  function InsertByPoints(sorted: seq<User>, u: User): (r: seq<User>)
    ensures |r| == |sorted| + 1
  {
    if sorted == [] || sorted[|sorted| - 1].points >= u.points then sorted + [u]
    else InsertByPoints(sorted[..|sorted| - 1], u) + [sorted[|sorted| - 1]]
  }

  /** Inserting adds `u` and loses nothing. */
  lemma {:induction false} InsertByPointsPermutes(sorted: seq<User>, u: User)
    ensures multiset(InsertByPoints(sorted, u)) == multiset(sorted) + multiset{u}
    decreases |sorted|
  {
    if sorted != [] && sorted[|sorted| - 1].points < u.points {
      var init := sorted[..|sorted| - 1];
      assert sorted == init + [sorted[|sorted| - 1]];
      InsertByPointsPermutes(init, u);
    }
  }

  /** The order `.sort((a, b) => b.points - a.points)` leaves a list in (a stable insertion
      sort; the algorithm is ECMAScript's, the order is what the standard requires). */
  function SortByPoints(s: seq<User>): (r: seq<User>)
    ensures |r| == |s|
  {
    if s == [] then []
    else InsertByPoints(SortByPoints(s[..|s| - 1]), s[|s| - 1])
  }

  /** Sorting is a permutation: the same users, each as often as before. */
  lemma {:induction false} SortByPointsPermutes(s: seq<User>)
    ensures multiset(SortByPoints(s)) == multiset(s)
  {
    if s != [] {
      assert s == s[..|s| - 1] + [s[|s| - 1]];
      SortByPointsPermutes(s[..|s| - 1]);
      InsertByPointsPermutes(SortByPoints(s[..|s| - 1]), s[|s| - 1]);
    }
  }

  /** Inserting keeps a lower bound that `u` and all of `sorted` meet. */
  lemma {:induction false} InsertByPointsAtLeast(sorted: seq<User>, u: User, bound: int)
    requires forall k :: 0 <= k < |sorted| ==> sorted[k].points >= bound
    requires u.points >= bound
    ensures forall k :: 0 <= k < |InsertByPoints(sorted, u)| ==> InsertByPoints(sorted, u)[k].points >= bound
    decreases |sorted|
  {
    if sorted == [] || sorted[|sorted| - 1].points >= u.points {
      assert InsertByPoints(sorted, u) == sorted + [u];
    } else {
      var init := sorted[..|sorted| - 1];
      assert forall k :: 0 <= k < |init| ==> init[k] == sorted[k];
      InsertByPointsAtLeast(init, u, bound);
      assert InsertByPoints(sorted, u) == InsertByPoints(init, u) + [sorted[|sorted| - 1]];
    }
  }

  /** Appending a user with no more points than anyone in an ordered list keeps it ordered. */
  lemma DescSnoc(t: seq<User>, x: User)
    requires ByPointsDesc(t)
    requires forall k :: 0 <= k < |t| ==> t[k].points >= x.points
    ensures ByPointsDesc(t + [x])
  {
  }

  lemma {:induction false} InsertByPointsDesc(sorted: seq<User>, u: User)
    requires ByPointsDesc(sorted)
    ensures ByPointsDesc(InsertByPoints(sorted, u))
    decreases |sorted|
  {
    if sorted == [] || sorted[|sorted| - 1].points >= u.points {
      assert forall k :: 0 <= k < |sorted| ==> sorted[k].points >= sorted[|sorted| - 1].points;
      DescSnoc(sorted, u);
    } else {
      var init := sorted[..|sorted| - 1];
      var last := sorted[|sorted| - 1];
      assert forall k :: 0 <= k < |init| ==> init[k] == sorted[k];
      assert ByPointsDesc(init);
      assert forall k :: 0 <= k < |init| ==> init[k].points >= last.points;
      InsertByPointsDesc(init, u);
      InsertByPointsAtLeast(init, u, last.points);
      var t := InsertByPoints(init, u);
      assert ByPointsDesc(t);
      assert forall k :: 0 <= k < |t| ==> t[k].points >= last.points;
      DescSnoc(t, last);
    }
  }

  /** The leaderboard order is by points, highest first. */
  lemma {:induction false} SortByPointsDesc(s: seq<User>)
    ensures ByPointsDesc(SortByPoints(s))
  {
    if s != [] {
      SortByPointsDesc(s[..|s| - 1]);
      InsertByPointsDesc(SortByPoints(s[..|s| - 1]), s[|s| - 1]);
    }
  }

  /** Inserting only moves `u` past elements with fewer points, so among the users with any
      one score the order is that of `sorted + [u]`. */
  lemma {:induction false} InsertByPointsStable(sorted: seq<User>, u: User, v: int)
    ensures Filter(InsertByPoints(sorted, u), HasPoints(v)) == Filter(sorted + [u], HasPoints(v))
    decreases |sorted|
  {
    if sorted == [] || sorted[|sorted| - 1].points >= u.points {
    } else {
      var init := sorted[..|sorted| - 1];
      var last := sorted[|sorted| - 1];
      var p := HasPoints(v);
      var ins := InsertByPoints(init, u);
      assert sorted == init + [last];
      assert InsertByPoints(sorted, u) == ins + [last];
      InsertByPointsStable(init, u, v);
      FilterConcat(ins, [last], p);
      FilterConcat(init + [u], [last], p);
      assert Filter(ins + [last], p) == Filter(init + [u] + [last], p);
      FilterSwapLast(init, u, last, p);
    }
  }

  /** The sort is stable: the users with the same points keep their relative order. */
  lemma {:induction false} SortByPointsStable(s: seq<User>, v: int)
    ensures Filter(SortByPoints(s), HasPoints(v)) == Filter(s, HasPoints(v))
  {
    if s != [] {
      var init := s[..|s| - 1];
      var last := s[|s| - 1];
      assert s == init + [last];
      SortByPointsStable(init, v);
      InsertByPointsStable(SortByPoints(init), last, v);
      FilterConcat(SortByPoints(init), [last], HasPoints(v));
      FilterConcat(init, [last], HasPoints(v));
    }
  }

  /** Inserting a key behind the run of elements with fewer points that ends the list puts it
      right in front of that run. */
  lemma {:induction false} InsertBeforeSmaller(sorted: seq<User>, key: User, j: nat)
    requires j <= |sorted|
    requires j == 0 || sorted[j - 1].points >= key.points
    requires forall k :: j <= k < |sorted| ==> sorted[k].points < key.points
    ensures InsertByPoints(sorted, key) == sorted[..j] + [key] + sorted[j..]
    decreases |sorted|
  {
    if j == |sorted| {
      assert sorted[..j] == sorted && sorted[j..] == [];
    } else {
      var init := sorted[..|sorted| - 1];
      var last := sorted[|sorted| - 1];
      InsertBeforeSmaller(init, key, j);
      assert init[..j] == sorted[..j];
      assert init[j..] + [last] == sorted[j..];
    }
  }

  /** After the shifting, the array prefix is the sorted prefix with the key in the gap at j. */
  lemma InsertFillsGap(sorted: seq<User>, key: User, j: nat, arr: seq<User>)
    requires j <= |sorted| < |arr|
    requires j == 0 || sorted[j - 1].points >= key.points
    requires forall k :: j <= k < |sorted| ==> sorted[k].points < key.points
    requires forall k :: 0 <= k < j ==> arr[k] == sorted[k]
    requires arr[j] == key
    requires forall k :: j < k <= |sorted| ==> arr[k] == sorted[k - 1]
    ensures arr[..|sorted| + 1] == InsertByPoints(sorted, key)
  {
    InsertBeforeSmaller(sorted, key, j);
    var target := sorted[..j] + [key] + sorted[j..];
    assert forall k :: 0 <= k <= |sorted| ==> arr[k] == target[k];
  }

  /** The inner loop of one insertion step: from position i leftwards, move every element of
      the sorted prefix with fewer points than `key` one place to the right; j is the gap left. */
  method ShiftSmaller(a: array<User>, i: nat, key: User, ghost sorted: seq<User>) returns (j: nat)
    requires i < a.Length && |sorted| == i
    requires forall k :: 0 <= k < i ==> a[k] == sorted[k]
    modifies a
    ensures j <= i
    ensures j == 0 || sorted[j - 1].points >= key.points
    ensures forall k :: j <= k < i ==> sorted[k].points < key.points
    ensures forall k :: 0 <= k < j ==> a[k] == sorted[k]
    ensures forall k :: j < k <= i ==> a[k] == sorted[k - 1]
    ensures forall k :: i < k < a.Length ==> a[k] == old(a[k])
  {
    j := i;
    while j > 0 && a[j - 1].points < key.points
      invariant j <= i
      invariant forall k {:trigger a[k]} :: j < k <= i ==> a[k].points < key.points
      invariant forall k {:trigger a[k]} :: 0 <= k < j ==> a[k] == sorted[k]
      invariant forall k {:trigger a[k]} :: j < k <= i ==> a[k] == sorted[k - 1]
      invariant forall k :: i < k < a.Length ==> a[k] == old(a[k])
    {
      a[j] := a[j - 1];
      j := j - 1;
    }
    forall k | j <= k < i
      ensures sorted[k].points < key.points
    {
      assert a[k + 1] == sorted[k];
    }
  }

  /** One step of the insertion sort: a[..i] is sorted; shift every element with fewer points
      than a[i] one place to the right, then drop a[i] into the gap. */
  method InsertNext(a: array<User>, i: nat)
    requires i < a.Length
    modifies a
    ensures a[..i + 1] == InsertByPoints(old(a[..i]), old(a[i]))
    ensures a[i + 1..] == old(a[i + 1..])
  {
    var key := a[i];
    ghost var sorted := a[..i];
    var j := ShiftSmaller(a, i, key, sorted);
    a[j] := key;
    InsertFillsGap(sorted, key, j, a[..]);
    assert a[i + 1..] == old(a[i + 1..]);
  }

  /** Sorting one more element of a list inserts it into the sorted prefix. */
  lemma SortByPointsStep(s: seq<User>, i: nat)
    requires i < |s|
    ensures SortByPoints(s[..i + 1]) == InsertByPoints(SortByPoints(s[..i]), s[i])
  {
    assert s[..i + 1][..i] == s[..i];
  }

  /** The in-place insertion sort `.sort((a, b) => b.points - a.points)` performs. */
  method SortInPlace(a: array<User>)
    modifies a
    ensures a[..] == SortByPoints(old(a[..]))
  {
    ghost var orig := a[..];
    var i := 0;
    while i < a.Length
      invariant 0 <= i <= a.Length
      invariant a[..i] == SortByPoints(orig[..i])
      invariant a[i..] == orig[i..]
    {
      assert a[i] == orig[i];
      assert a[i + 1..] == orig[i + 1..];
      InsertNext(a, i);
      SortByPointsStep(orig, i);
      i := i + 1;
    }
    assert orig[..a.Length] == orig;
  }

  /** `users.filter(role === 'alumni').sort(...)`: copy the alumni into a fresh array and
      sort it there. */
  method RankAlumni(users: seq<User>) returns (ranked: seq<User>)
    ensures ranked == SortByPoints(AlumniOf(users))
    ensures multiset(ranked) == multiset(AlumniOf(users))
    ensures ByPointsDesc(ranked)
    ensures forall v :: Filter(ranked, HasPoints(v)) == Filter(AlumniOf(users), HasPoints(v))
  {
    var alumni := AlumniOf(users);
    var a := new User[|alumni|](i requires 0 <= i < |alumni| => alumni[i]);
    assert a[..] == alumni;
    SortInPlace(a);
    ranked := a[..];
    SortByPointsPermutes(alumni);
    SortByPointsDesc(alumni);
    forall v ensures Filter(ranked, HasPoints(v)) == Filter(alumni, HasPoints(v)) {
      SortByPointsStable(alumni, v);
    }
  }

  /** `alumni.map((user, index) => ({ user, rank: index + 1, pointsThisMonth }))`; the monthly
      figure is random in the page, so it is a parameter here. */
  function Entries(ranked: seq<User>, monthly: nat -> int): (r: seq<LeaderboardEntry>)
    ensures |r| == |ranked|
    ensures forall i :: 0 <= i < |r| ==> r[i].user == ranked[i] && r[i].rank == i + 1
  {
    seq(|ranked|, i requires 0 <= i < |ranked| => LeaderboardEntry(ranked[i], i + 1, monthly(i)))
  }

  /** The entries the page renders for a user list. */
  function Leaderboard(users: seq<User>, monthly: nat -> int): (e: seq<LeaderboardEntry>)
    ensures |e| == |AlumniOf(users)|
    ensures forall i :: 0 <= i < |e| ==> e[i].rank == i + 1
  {
    Entries(SortByPoints(AlumniOf(users)), monthly)
  }

  /** The leaderboard lists exactly the alumni: every alumnus has an entry and nobody else does. */
  lemma EntriesAreAlumni(users: seq<User>, monthly: nat -> int)
    ensures var e := Leaderboard(users, monthly);
      forall u :: (exists i :: 0 <= i < |e| && e[i].user == u) <==> u in users && u.role == Alumni
  {
    var ranked := SortByPoints(AlumniOf(users));
    SortByPointsPermutes(AlumniOf(users));
    var e := Leaderboard(users, monthly);
    forall u ensures (exists i :: 0 <= i < |e| && e[i].user == u) <==> u in AlumniOf(users) {
      calc {
        u in AlumniOf(users);
        u in multiset(AlumniOf(users));
        u in multiset(ranked);
        u in ranked;
      }
      if u in ranked {
        var i :| 0 <= i < |ranked| && ranked[i] == u;
        assert e[i].user == u;
      }
    }
  }

  /** Numbering a list ordered by points: more points, smaller rank. */
  lemma EntriesFollowPoints(ranked: seq<User>, monthly: nat -> int)
    requires ByPointsDesc(ranked)
    ensures var e := Entries(ranked, monthly);
      forall i, j :: 0 <= i < |e| && 0 <= j < |e| && e[i].user.points > e[j].user.points ==>
        e[i].rank < e[j].rank
  {
    var e := Entries(ranked, monthly);
    forall i, j | 0 <= i < |e| && 0 <= j < |e| && e[i].user.points > e[j].user.points
      ensures e[i].rank < e[j].rank
    {
      assert ranked[i].points > ranked[j].points;
    }
  }

  /** A user with more points than another always has the smaller rank (ties keep the
      directory order: see SortByPointsStable). */
  lemma RanksFollowPoints(users: seq<User>, monthly: nat -> int)
    ensures var e := Leaderboard(users, monthly);
      forall i, j :: 0 <= i < |e| && 0 <= j < |e| && e[i].user.points > e[j].user.points ==>
        e[i].rank < e[j].rank
  {
    SortByPointsDesc(AlumniOf(users));
    EntriesFollowPoints(SortByPoints(AlumniOf(users)), monthly);
  }

  /** Three alumni listed by decreasing points, with two students among them, are ranked 1 to
      3 in their listed order. */
  lemma RankThreeAlumni(a: User, b: User, s1: User, c: User, s2: User, monthly: nat -> int)
    requires a.role == Alumni && b.role == Alumni && c.role == Alumni
    requires s1.role == Student && s2.role == Student
    requires a.points >= b.points >= c.points
    ensures var e := Leaderboard([a, b, s1, c, s2], monthly);
      && |e| == 3
      && e[0].user == a && e[0].rank == 1
      && e[1].user == b && e[1].rank == 2
      && e[2].user == c && e[2].rank == 3
  {
    AlumniAmongStudents(a, b, s1, c, s2);
    var alumni := [a, b, c];
    assert SortByPoints([a]) == [a] by { assert [a][..0] == []; }
    assert SortByPoints([a, b]) == [a, b] by { assert [a, b][..1] == [a]; }
    assert SortByPoints(alumni) == alumni by { assert alumni[..2] == [a, b]; }
  }

  /** A filter over three elements that keeps only the middle one. */
  lemma KeepsMiddleOfThree<T(!new)>(x: T, c: T, y: T, p: T -> bool)
    requires p(c) && !p(x) && !p(y)
    ensures Filter([x, c, y], p) == [c]
  {
    var s := [x, c, y];
    assert Filter(s[2..], p) == [] by { assert s[2..][0] == y && s[2..][1..] == []; }
    assert Filter(s[1..], p) == [c] by { assert s[1..][0] == c && s[1..][1..] == s[2..]; }
    assert Filter(s, p) == Filter(s[1..], p) by { assert s[0] == x; }
  }

  /** A filter over five elements that keeps the first, second and fourth. */
  lemma KeepsThreeOfFive<T(!new)>(a: T, b: T, x: T, c: T, y: T, p: T -> bool)
    requires p(a) && p(b) && p(c) && !p(x) && !p(y)
    ensures Filter([a, b, x, c, y], p) == [a, b, c]
  {
    var s := [a, b, x, c, y];
    assert Filter(s[2..], p) == [c] by {
      assert s[2..] == [x, c, y];
      KeepsMiddleOfThree(x, c, y, p);
    }
    assert Filter(s[1..], p) == [b, c] by { assert s[1..][0] == b && s[1..][1..] == s[2..]; }
    assert Filter(s, p) == [a] + [b, c] by { assert s[0] == a; }
    assert [a] + [b, c] == [a, b, c];
  }

  lemma AlumniAmongStudents(a: User, b: User, s1: User, c: User, s2: User)
    requires a.role == Alumni && b.role == Alumni && c.role == Alumni
    requires s1.role == Student && s2.role == Student
    ensures Filter([a, b, s1, c, s2], IsAlumnus) == [a, b, c]
  {
    KeepsThreeOfFive(a, b, s1, c, s2, IsAlumnus);
  }

  /** With the sample users the leaderboard is Alice (285), Bob (192), David (156): the two
      students are left out and the alumni are numbered 1 to 3 by points. */
  lemma SampleRanking(monthly: nat -> int)
    ensures var e := Leaderboard(MockData.Users, monthly);
      && |e| == 3
      && e[0].user == MockData.Alice && e[0].rank == 1
      && e[1].user == MockData.Bob && e[1].rank == 2
      && e[2].user == MockData.David && e[2].rank == 3
  {
    RankThreeAlumni(MockData.Alice, MockData.Bob, MockData.Carol, MockData.David, MockData.Emma, monthly);
  }

  /** `slice(0, 3)` and `slice(3)`: the podium and the rest, which together are all entries. */
  function TopThree(entries: seq<LeaderboardEntry>): (r: seq<LeaderboardEntry>)
    ensures |r| <= 3 && r <= entries
  {
    Take(entries, 3)
  }

  function Others(entries: seq<LeaderboardEntry>): (r: seq<LeaderboardEntry>)
    ensures TopThree(entries) + r == entries
    ensures |entries| <= 3 <==> r == []
  {
    entries[|TopThree(entries)|..]
  }

  /** The podium shows exactly when there are at least three alumni. */
  predicate ShowPodium(entries: seq<LeaderboardEntry>)
  {
    |TopThree(entries)| >= 3
  }

  lemma PodiumNeedsThree(entries: seq<LeaderboardEntry>)
    ensures ShowPodium(entries) <==> |entries| >= 3
  {
  }

  /** `topThree[0]?.user.points || 0` */
  function TopScorer(entries: seq<LeaderboardEntry>): int
  {
    if entries == [] then 0 else entries[0].user.points
  }

  /** The "Top Scorer" card shows the highest alumni score, or 0 without alumni. */
  lemma {:induction false} TopScorerIsMax(users: seq<User>, monthly: nat -> int)
    ensures var top := TopScorer(TopThree(Leaderboard(users, monthly)));
      && (AlumniOf(users) == [] ==> top == 0)
      && (AlumniOf(users) != [] ==>
            (exists u :: u in AlumniOf(users) && u.points == top) &&
            forall u :: u in AlumniOf(users) ==> u.points <= top)
  {
    var alumni := AlumniOf(users);
    var ranked := SortByPoints(alumni);
    SortByPointsPermutes(alumni);
    SortByPointsDesc(alumni);
    assert forall u :: u in ranked <==> u in multiset(alumni);
    if alumni != [] {
      assert ranked[0] in ranked;
      forall u | u in alumni ensures u.points <= ranked[0].points {
        var k :| 0 <= k < |ranked| && ranked[k] == u;
      }
    }
  }

  /** `reduce((sum, user) => sum + user.points, 0)` */
  function SumPoints(s: seq<User>): int
  {
    if s == [] then 0 else SumPoints(s[..|s| - 1]) + s[|s| - 1].points
  }

  lemma {:induction false} SumPointsConcat(s: seq<User>, t: seq<User>)
    ensures SumPoints(s + t) == SumPoints(s) + SumPoints(t)
    decreases |t|
  {
    if t != [] {
      var u := s + t;
      assert u[..|u| - 1] == s + t[..|t| - 1];
      assert u[|u| - 1] == t[|t| - 1];
      assert SumPoints(u) == SumPoints(u[..|u| - 1]) + u[|u| - 1].points;
      SumPointsConcat(s, t[..|t| - 1]);
    } else {
      assert s + t == s;
    }
  }

  lemma {:induction false} SumPointsInsert(sorted: seq<User>, u: User)
    ensures SumPoints(InsertByPoints(sorted, u)) == SumPoints(sorted) + u.points
    decreases |sorted|
  {
    if sorted == [] || sorted[|sorted| - 1].points >= u.points {
      SumPointsConcat(sorted, [u]);
    } else {
      var init := sorted[..|sorted| - 1];
      var last := sorted[|sorted| - 1];
      SumPointsInsert(init, u);
      SumPointsConcat(InsertByPoints(init, u), [last]);
      SumPointsConcat(init, [last]);
      assert sorted == init + [last];
    }
  }

  /** Sorting does not change the total. */
  lemma {:induction false} SumPointsSort(s: seq<User>)
    ensures SumPoints(SortByPoints(s)) == SumPoints(s)
  {
    if s != [] {
      SumPointsSort(s[..|s| - 1]);
      SumPointsInsert(SortByPoints(s[..|s| - 1]), s[|s| - 1]);
    }
  }

  /** `Math.round(sum / n) || 0`: the mean rounded half up; with no alumni `0 / 0` is NaN and
      the card falls back to 0. */
  function RoundedMean(sum: int, n: nat): (r: int)
    ensures n == 0 ==> r == 0
    ensures n > 0 ==> 2 * n * r - n <= 2 * sum < 2 * n * r + n
  {
    if n == 0 then 0 else (2 * sum + n) / (2 * n)
  }

  /** The "Average Points" card. */
  function AveragePoints(ranked: seq<User>): (avg: int)
    ensures ranked == [] ==> avg == 0
    ensures ranked != [] ==> 2 * |ranked| * avg - |ranked| <= 2 * SumPoints(ranked) < 2 * |ranked| * avg + |ranked|
  {
    RoundedMean(SumPoints(ranked), |ranked|)
  }

  /** The average over the ranked list is the rounded mean of the alumni's points. */
  lemma AverageOfAlumni(users: seq<User>)
    ensures var alumni := AlumniOf(users);
      var avg := AveragePoints(SortByPoints(alumni));
      && (alumni == [] ==> avg == 0)
      && (alumni != [] ==> 2 * |alumni| * avg - |alumni| <= 2 * SumPoints(alumni) < 2 * |alumni| * avg + |alumni|)
  {
    SumPointsSort(AlumniOf(users));
  }

  predicate IsGoldChampion(u: User)
  {
    GetBadgeForPoints(u.points).name == "Gold Champion"
  }

  function GoldChampion(): User -> bool
  {
    u => IsGoldChampion(u)
  }

  /** The "Gold Members" card. */
  function GoldMembers(ranked: seq<User>): (n: nat)
    ensures n <= |ranked|
  {
    Count(ranked, GoldChampion())
  }

  function AtLeast(threshold: int): User -> bool
  {
    (u: User) => u.points >= threshold
  }

  /** The gold count is the number of alumni with at least 151 points, whatever the order. */
  lemma {:induction false} GoldMembersAtLeast151(users: seq<User>)
    ensures GoldMembers(SortByPoints(AlumniOf(users))) == Count(AlumniOf(users), AtLeast(151))
  {
    var alumni := AlumniOf(users);
    var ranked := SortByPoints(alumni);
    SortByPointsPermutes(alumni);
    FilterPermutation(ranked, alumni, GoldChampion());
    forall u | u in alumni ensures GoldChampion()(u) == AtLeast(151)(u) {
      GoldByName(u.points);
    }
    FilterCongruent(alumni, GoldChampion(), AtLeast(151));
  }
}

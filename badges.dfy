/** The badge classifier (src/utils/badges.ts): a point total picks one of three tier badges
    from the badge table, and alumni with more than 100 points also earn Resource Contributor. */
module Badges {
  import opened Types
  import opened Seqs
  import opened MockData

  /** `getBadgeForPoints`: inclusive lower bounds 151 (Gold) and 51 (Silver); everything
      below 51, negative totals included, falls back to Bronze. */
  function GetBadgeForPoints(points: int): (b: Badge)
    ensures b == BadgeTable[2] <==> points >= 151
    ensures b == BadgeTable[1] <==> 51 <= points <= 150
    ensures b == BadgeTable[0] <==> points < 51
  {
    if points >= 151 then BadgeTable[2]
    else if points >= 51 then BadgeTable[1]
    else BadgeTable[0]
  }

  /** More points never give a lower tier (tiers are ordered by their threshold). */
  lemma GetBadgeMonotone(p: int, q: int)
    requires p <= q
    ensures GetBadgeForPoints(p).pointsRequired <= GetBadgeForPoints(q).pointsRequired
  {
  }

  /** The three tiers are listed by increasing threshold. */
  ghost predicate ThresholdsAscending(tiers: seq<Badge>)
  {
    forall i, j :: 0 <= i < j < |tiers| ==> tiers[i].pointsRequired < tiers[j].pointsRequired
  }

  /** Reference classifier over any threshold table sorted by threshold: the tier with the
      highest threshold not above the score, or None when the score is below every threshold. */
  function Classify(tiers: seq<Badge>, points: int): (r: Option<Badge>)
    requires ThresholdsAscending(tiers)
    ensures r.Some? ==> r.value in tiers && r.value.pointsRequired <= points
    ensures r.Some? ==> forall t :: t in tiers && t.pointsRequired <= points ==>
      t.pointsRequired <= r.value.pointsRequired
    ensures r.None? <==> forall t :: t in tiers ==> points < t.pointsRequired
  {
    if tiers == [] then None
    else
      var init, last := tiers[..|tiers| - 1], tiers[|tiers| - 1];
      assert tiers == init + [last];
      assert ThresholdsAscending(init);
      if last.pointsRequired <= points then
        assert forall t :: t in tiers ==> t.pointsRequired <= last.pointsRequired by {
          forall t | t in tiers ensures t.pointsRequired <= last.pointsRequired {
            var k :| 0 <= k < |tiers| && tiers[k] == t;
            if k < |tiers| - 1 { assert tiers[k].pointsRequired < tiers[|tiers| - 1].pointsRequired; }
          }
        }
        Some(last)
      else
        Classify(init, points)
  }

  /** For every non-negative total, getBadgeForPoints agrees with the reference classifier over
      the first three rows of the badge table; below 0 the table has no tier and the source
      clamps to Bronze instead of rejecting the score. */
  lemma {:induction false} GetBadgeIsHighestTier(points: int)
    ensures ThresholdsAscending(BadgeTable[..3])
    ensures points >= 0 ==> Classify(BadgeTable[..3], points) == Some(GetBadgeForPoints(points))
    ensures points < 0 ==> Classify(BadgeTable[..3], points) == None && GetBadgeForPoints(points) == Bronze
  {
    var tiers := BadgeTable[..3];
    assert tiers == [Bronze, Silver, Gold];
    assert ThresholdsAscending(tiers);
    var r := Classify(tiers, points);
    if points >= 0 {
      assert Bronze in tiers;
      assert r.Some?;
      assert r.value == Bronze || r.value == Silver || r.value == Gold;
      if points >= 151 {
        assert Gold in tiers;
      } else if points >= 51 {
        assert Silver in tiers;
      }
    }
  }

  /** The score examples the classifier is documented with. */
  lemma GetBadgeExamples()
    ensures GetBadgeForPoints(0) == Bronze && GetBadgeForPoints(50) == Bronze
    ensures GetBadgeForPoints(51) == Silver && GetBadgeForPoints(150) == Silver
    ensures GetBadgeForPoints(151) == Gold && GetBadgeForPoints(1000) == Gold
    ensures GetBadgeForPoints(-5) == Bronze
  {
  }

  /** The Gold test the leaderboard applies to a badge's name picks out exactly 151 points and up. */
  lemma GoldByName(points: int)
    ensures GetBadgeForPoints(points).name == "Gold Champion" <==> points >= 151
  {
  }

  /** `getAllEarnedBadges`: push the point badge, then push Resource Contributor for alumni
      with strictly more than 100 points. */
  method GetAllEarnedBadges(user: User) returns (earned: seq<Badge>)
    ensures 1 <= |earned| <= 2
    ensures earned[0] == GetBadgeForPoints(user.points)
    ensures |earned| == 2 <==> user.role == Alumni && user.points > 100
    ensures |earned| == 2 ==> earned[1] == BadgeTable[4]
    ensures Distinct(earned)
  {
    earned := [];
    var pointBadge := GetBadgeForPoints(user.points);
    earned := earned + [pointBadge];
    if user.role == Alumni && user.points > 100 {
      earned := earned + [BadgeTable[4]];
    }
  }
}

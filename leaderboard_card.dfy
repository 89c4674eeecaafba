/** One leaderboard row (src/components/Cards/LeaderboardCard.tsx): the badge, the rank colour
    and icon, the skills preview with its "+k more" chip, and the monthly points line. */
module LeaderboardCardView {
  import opened Types
  import opened Seqs
  import opened Badges
  import LeaderboardPage

  /** The badge the card shows is the point badge, whatever badges the user record holds. */
  function CardBadge(user: User): (b: Badge)
    ensures b.name == "Gold Champion" <==> user.points >= 151
    ensures b.name == "Silver Mentor" <==> 51 <= user.points <= 150
    ensures b.name == "Bronze Helper" <==> user.points <= 50
  {
    GetBadgeForPoints(user.points)
  }

  /** The four text colours `getRankColor` chooses between. */
  datatype RankColor = Yellow500 | Gray400 | Yellow600 | Gray500

  /** `getRankColor`: its own colour for each of ranks 1, 2 and 3, the default for any other. */
  function RankColorOf(rank: int): (c: RankColor)
    ensures c == Yellow500 <==> rank == 1
    ensures c == Gray400 <==> rank == 2
    ensures c == Yellow600 <==> rank == 3
    ensures c == Gray500 <==> rank != 1 && rank != 2 && rank != 3
  {
    if rank == 1 then Yellow500
    else if rank == 2 then Gray400
    else if rank == 3 then Yellow600
    else Gray500
  }

  datatype RankIcon = Crown | Award

  /** `getRankIcon`: the crown for every rank up to 3 (the test is `<=`, so it would also cover
      a rank of 0 or below, which the leaderboard never produces). */
  function RankIconOf(rank: int): (i: RankIcon)
    ensures i == Crown <==> rank <= 3
  {
    if rank <= 3 then Crown else Award
  }

  /** `user.skills.slice(0, 3)` */
  function SkillsPreview(skills: seq<string>): (r: seq<string>)
    ensures |r| == if |skills| < 3 then |skills| else 3
    ensures r <= skills
  {
    Take(skills, 3)
  }

  /** The "+k more" chip: present exactly when the preview hides some skills, and then k is
      the number hidden. */
  function MoreChip(skills: seq<string>): (k: Option<nat>)
    ensures k.Some? <==> |skills| > 3
    ensures k.Some? ==> |SkillsPreview(skills)| + k.value == |skills|
    ensures k.None? ==> SkillsPreview(skills) == skills
  {
    if |skills| > 3 then Some(|skills| - 3) else None
  }

  /** `pointsThisMonth = 0` as the default, and `pointsThisMonth > 0 && ...`: the line shows the
      monthly figure only when one was given and it is positive. */
  function MonthlyLine(pointsThisMonth: Option<int>): (r: Option<int>)
    ensures r.Some? <==> pointsThisMonth.Some? && pointsThisMonth.value > 0
    ensures r.Some? ==> r.value == pointsThisMonth.value
  {
    var p := match pointsThisMonth case None => 0 case Some(v) => v;
    if p > 0 then Some(p) else None
  }

  /** On the leaderboard page the crown goes to exactly the first three rows, and those three
      rows have three different colours; every later row has the default colour. */
  lemma {:induction false} PodiumCards(users: seq<User>, monthly: nat -> int)
    ensures var e := LeaderboardPage.Leaderboard(users, monthly);
      && (forall i :: 0 <= i < |e| ==> (RankIconOf(e[i].rank) == Crown <==> i < 3))
      && (forall i, j :: 0 <= i < j < |e| && i < 3 ==> RankColorOf(e[i].rank) != RankColorOf(e[j].rank))
      && (forall i :: 3 <= i < |e| ==> RankColorOf(e[i].rank) == Gray500)
  {
    var e := LeaderboardPage.Leaderboard(users, monthly);
    forall i, j | 0 <= i < j < |e| && i < 3
      ensures RankColorOf(e[i].rank) != RankColorOf(e[j].rank)
    {
      assert e[i].rank == i + 1 && e[j].rank == j + 1;
    }
  }
}

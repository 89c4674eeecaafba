# Alumni portal: a Dafny model of its list logic

The portal is a React front end in which students ask questions and alumni answer them. Alumni
also share resources and earn points and badges, and the portal has a leaderboard and an alumni
directory. Everything it computes runs in memory over fixture arrays, through a few inline list
operations. This project models those operations and proves what they guarantee:

- the badge classifier (`getBadgeForPoints`, `getAllEarnedBadges`);
- the search, filter and facet lists of the Directory, Q&A forum and Resources pages;
- the leaderboard's in-place stable sort by points, its ranks, podium split and stat cards;
- the per-user aggregates of the Profile and Dashboard pages;
- the question draft of the forum page and the vote record of the question card (both state
  that event handlers update, modelled as classes);
- the leaderboard card's rank colour, icon and skills preview;
- the sidebar's role-gated menu, active item and footer subtitle.

Modules follow the source files: `Badges`, `Directory`, `QueriesPage`, `ResourcesPage`,
`LeaderboardPage`, `ProfilePage`, `DashboardPage`, `QueryCardView`, `LeaderboardCardView` and
`SidebarNav`. They share these modules:

- `Types`: the records of `src/types/index.ts`.
- `MockData`: the badge table and the fixtures.
- `Seqs`: JavaScript's `filter`, `Array.from(new Set(...))`, `slice(0, k)` and
  `filter(...).length`.
- `Text`: ASCII `toLowerCase`, `includes` as substring, and the default string `sort`.
- `Roles`: the alumni/student split.
- `Selection`: the pill toggle used by two pages.

The model follows the code in three places where a reader might expect otherwise:

- A negative score is classified Bronze; the code has no error path for it.
- The skills facet keeps empty skill names; only batches and companies drop empty values.
- The tag and category lists keep first-occurrence order; they are not sorted.

The question card keeps one vote record for the question and its answers. In the sample data the
first question and its first answer both have id "1", so an answer vote overwrites the
question's vote. `QueryCardView.SharedKeySpace` shows this.

## Model

| member | source | states |
|---|---|---|
| Badges.GetBadgeForPoints | src/utils/badges.ts:4-8 | Gold exactly from 151 points, Silver exactly for 51..150, Bronze for everything below 51 including negative totals |
| Badges.GetBadgeMonotone | src/utils/badges.ts:5-7 | more points never give a tier with a lower threshold |
| Badges.Classify | src/data/mockData.ts:4-6 | reference classifier over a threshold-ascending tier table: the tier with the highest threshold not above the score, None below every threshold |
| Badges.GetBadgeIsHighestTier | src/utils/badges.ts:4-7 | for scores >= 0 the classifier equals the reference over table rows 0-2; below 0 the reference has no tier and the code clamps to Bronze |
| Badges.GetBadgeExamples | src/utils/badges.ts:5-7 | the boundary scores 0, 50, 51, 150, 151, 1000 and -5 land in the expected tiers |
| Badges.GoldByName | src/pages/Leaderboard.tsx:97 | the name test "Gold Champion" holds exactly for 151 points and up |
| Badges.GetAllEarnedBadges | src/utils/badges.ts:10-23 | the point badge comes first; a second badge exists iff the user is alumni with more than 100 points, and it is Resource Contributor; no badge repeats |
| Selection.TogglePill | src/pages/Queries.tsx:113 | a pill click clears the selection when that pill was selected and selects the pill otherwise (also the category pills at src/pages/Resources.tsx:122) |
| Selection.ToggleTwice | src/pages/Queries.tsx:113 | two clicks on a pill restore the selection iff nothing or that pill was selected, else they clear it (the same rule is used at src/pages/Resources.tsx:122) |
| Roles.AlumniOf | src/pages/Directory.tsx:13 | an order-preserving subsequence of the users holding exactly the alumni, each as often as in the input |
| Roles.StudentsOf | src/pages/Dashboard.tsx:14 | an order-preserving subsequence holding exactly the students, each as often as in the input |
| Roles.RolesPartition | src/pages/Dashboard.tsx:13-14 | alumni and students together count every user once |
| Seqs.Filter | src/pages/Directory.tsx:21 | the kept elements are exactly the input elements satisfying the predicate, never more of them than the input has |
| Seqs.FilterSubsequence | src/pages/Directory.tsx:21 | a filter result is a subsequence of its input, so order is kept |
| Seqs.FilterCounts | src/pages/Directory.tsx:21 | a filter keeps every satisfying element as often as it occurs and drops every other |
| Seqs.Count | src/pages/Resources.tsx:62 | the count is at most the length, equals it iff all elements satisfy the predicate, and is 0 iff none does |
| Seqs.Take | src/pages/Dashboard.tsx:11 | `slice(0, k)` is the prefix of length min(k, n) |
| Seqs.Dedupe | src/pages/Queries.tsx:18 | `Array.from(new Set(xs))` has no duplicates, the same elements as xs, and lists them in first-occurrence order |
| Text.Lower | src/pages/Directory.tsx:22 | ASCII lower-casing, character by character, keeping the length |
| Text.Contains | src/pages/Directory.tsx:22 | `includes`: the needle is a prefix of some suffix of the string |
| Text.Matches | src/pages/Directory.tsx:22-24 | the lower-cased field contains the lower-cased term |
| Text.ContainsAt | src/pages/Directory.tsx:22 | `includes` holds iff the needle occurs at some position of the string |
| Text.SortStrings | src/pages/Directory.tsx:16 | the default sort returns a permutation in non-decreasing order, strictly ascending when the input has no duplicates |
| Directory.Present | src/pages/Directory.tsx:16 | `.filter(Boolean)` keeps exactly the present, non-empty values |
| Directory.SortedFacet | src/pages/Directory.tsx:16 | `Array.from(new Set(values)).sort()` is strictly ascending and holds exactly the values |
| Directory.BatchValues | src/pages/Directory.tsx:16 | the mapped batches are exactly the batches some alumnus has |
| Directory.CompanyValues | src/pages/Directory.tsx:17 | the mapped companies are exactly the companies some alumnus has |
| Directory.AllSkills | src/pages/Directory.tsx:18 | `flatMap` of skills holds exactly the skills some alumnus has |
| Directory.Batches | src/pages/Directory.tsx:16 | ascending and duplicate-free, holding exactly the non-empty batches of alumni |
| Directory.Companies | src/pages/Directory.tsx:17 | ascending and duplicate-free, holding exactly the non-empty companies of alumni |
| Directory.Skills | src/pages/Directory.tsx:18 | ascending and duplicate-free, holding exactly the union of alumni skills, empty labels included |
| Directory.SkillOptions | src/pages/Directory.tsx:135 | the dropdown offers exactly the first min(10, n) skills |
| Directory.MatchesSearch | src/pages/Directory.tsx:22-24 | the term, case-insensitively, in the name, the company when there is one, or some skill |
| Directory.Kept | src/pages/Directory.tsx:22-29 | the search test and the batch, company and skill tests, each skipped when its setting is empty |
| Directory.FilteredAlumni | src/pages/Directory.tsx:21-30 | an order-preserving subsequence with exactly the alumni that match the search and every selected filter, none repeated or invented |
| Directory.DirectoryListing | src/pages/Directory.tsx:13-30 | the listing holds exactly the users that are alumni and pass the filters, so students never appear |
| Directory.NoFiltersKeepsAll | src/pages/Directory.tsx:22-27 | an empty search with no selections lists every alumnus in order |
| Directory.NoCompany | src/pages/Directory.tsx:23-26 | an alumnus without a company fails any company filter and matches the search only through name or skills |
| Directory.FiltersCompose | src/pages/Directory.tsx:29 | filtering by two settings on disjoint fields one after the other equals filtering once by their merge |
| Directory.SkillFilterIsCaseSensitive | src/pages/Directory.tsx:24-27 | the search "react" finds a "React" skill while the skill filter "react" rejects it |
| QueriesPage.AllTagOccurrences | src/pages/Queries.tsx:18 | `flatMap` of tags holds exactly the tags some query carries |
| QueriesPage.AllTags | src/pages/Queries.tsx:18 | duplicate-free, exactly the used tags, in order of first use rather than sorted |
| QueriesPage.TagPills | src/pages/Queries.tsx:110 | the pills are exactly the first min(6, n) tags |
| QueriesPage.QueryKept | src/pages/Queries.tsx:22-24 | the question contains the search case-insensitively and, when a tag is selected, the query carries it |
| QueriesPage.FilteredQueries | src/pages/Queries.tsx:21-25 | an order-preserving subsequence with exactly the queries whose question contains the search case-insensitively and that carry the selected tag |
| QueriesPage.NoFilterShowsAll | src/pages/Queries.tsx:22-23 | empty search and no tag list every query |
| QueriesPage.WithTag | src/pages/Queries.tsx:35-42 | the old tags stay in front in their order; the list grows by one (the tag, at the end) exactly when the tag was missing; a duplicate-free list stays duplicate-free |
| QueriesPage.WithoutTag | src/pages/Queries.tsx:44-49 | every occurrence of the tag is gone, the other tags keep their order, and duplicate-freedom is kept |
| QueriesPage.AddTagIdempotent | src/pages/Queries.tsx:36-40 | adding a tag twice equals adding it once |
| QueriesPage.RemoveUndoesAdd | src/pages/Queries.tsx:35-49 | removing after adding equals removing; when the tag was absent it restores the draft |
| QueriesPage.Page.constructor | src/pages/Queries.tsx:9-15 | the page starts with empty search, no tag, the form closed and an empty draft |
| QueriesPage.Page.Visible | src/pages/Queries.tsx:21-25 | the list the page shows for its current search and tag: an order-preserving subsequence with exactly the queries that pass |
| QueriesPage.Page.AddTag | src/pages/Queries.tsx:35-42 | the draft tags become WithTag of the old ones, stay duplicate-free, and nothing else changes |
| QueriesPage.Page.RemoveTag | src/pages/Queries.tsx:44-49 | the draft tags become WithoutTag of the old ones and the question text is untouched |
| QueriesPage.Page.SubmitQuery | src/pages/Queries.tsx:27-33 | the form closes and the draft is reset to an empty question and no tags |
| QueriesPage.Page.SetShowNewQuery | src/pages/Queries.tsx:64 | opening or cancelling the form keeps the draft |
| QueriesPage.Page.EditQuestion | src/pages/Queries.tsx:146 | typing replaces the question and keeps the tags |
| QueriesPage.Page.SetSearch | src/pages/Queries.tsx:83 | typing in the search box changes only the search |
| QueriesPage.Page.SelectTag | src/pages/Queries.tsx:96 | the dropdown changes only the selected tag |
| QueriesPage.Page.ClickTagPill | src/pages/Queries.tsx:113 | a pill click selects that tag, or clears the selection when it was already selected |
| ResourcesPage.CategoryValues | src/pages/Resources.tsx:13 | the mapped categories, position by position |
| ResourcesPage.Categories | src/pages/Resources.tsx:13 | duplicate-free, exactly the categories in use, in order of first appearance |
| ResourcesPage.CategoryCount | src/pages/Resources.tsx:62 | at most the number of resources, and 0 iff no resource has the category |
| ResourcesPage.CategoryCountBounds | src/pages/Resources.tsx:61-62 | every listed category counts between 1 and all resources |
| ResourcesPage.StatCategories | src/pages/Resources.tsx:61 | exactly the first min(3, n) categories get a stat card |
| ResourcesPage.ResourceKept | src/pages/Resources.tsx:17-20 | the title or description contains the search case-insensitively and, when a category is selected, the resource has it |
| ResourcesPage.FilteredResources | src/pages/Resources.tsx:16-21 | an order-preserving subsequence with exactly the resources whose title or description contains the search and whose category is the selected one |
| ResourcesPage.NoFilterShowsAll | src/pages/Resources.tsx:17-19 | empty search and no category list every resource |
| ResourcesPage.CategoryAfterSearch | src/pages/Resources.tsx:19 | choosing a category after searching equals searching within the category |
| LeaderboardPage.InsertByPoints | src/pages/Leaderboard.tsx:13 | one insertion step of the sort adds exactly one element |
| LeaderboardPage.InsertByPointsPermutes | src/pages/Leaderboard.tsx:13 | inserting adds the user and loses nobody |
| LeaderboardPage.SortByPoints | src/pages/Leaderboard.tsx:13 | the sorted list has the input's length |
| LeaderboardPage.SortByPointsPermutes | src/pages/Leaderboard.tsx:13 | sorting is a permutation |
| LeaderboardPage.InsertByPointsDesc | src/pages/Leaderboard.tsx:13 | inserting into a list ordered by decreasing points keeps it ordered |
| LeaderboardPage.SortByPointsDesc | src/pages/Leaderboard.tsx:13 | points never increase along the sorted list |
| LeaderboardPage.InsertByPointsStable | src/pages/Leaderboard.tsx:13 | among users with equal points, inserting keeps the order of the list followed by the new user |
| LeaderboardPage.SortByPointsStable | src/pages/Leaderboard.tsx:13 | the sort is stable: users with equal points keep their relative order |
| LeaderboardPage.ShiftSmaller | src/pages/Leaderboard.tsx:13 | the inner loop moves exactly the trailing users with fewer points than the key one slot right and stops after a user with at least the key's points |
| LeaderboardPage.InsertNext | src/pages/Leaderboard.tsx:13 | one in-place step turns the array prefix into InsertByPoints of the old prefix and the next user, leaving the rest |
| LeaderboardPage.SortInPlace | src/pages/Leaderboard.tsx:13 | the in-place sort leaves the array equal to SortByPoints of its old contents |
| LeaderboardPage.RankAlumni | src/pages/Leaderboard.tsx:11-13 | sorting a fresh copy of the alumni yields a permutation of exactly the alumni, ordered by points and stable on ties; the user list is not touched |
| LeaderboardPage.Entries | src/pages/Leaderboard.tsx:16-20 | entry i holds the i-th ranked user with rank i + 1 |
| LeaderboardPage.Leaderboard | src/pages/Leaderboard.tsx:11-20 | one entry per alumnus, ranked 1, 2, 3, ... down the sorted list |
| LeaderboardPage.EntriesAreAlumni | src/pages/Leaderboard.tsx:11-20 | a user has an entry iff the user is an alumnus in the list |
| LeaderboardPage.RanksFollowPoints | src/pages/Leaderboard.tsx:13-18 | more points always mean a smaller rank |
| LeaderboardPage.RankThreeAlumni | src/pages/Leaderboard.tsx:11-18 | three alumni listed by decreasing points among two students get ranks 1, 2, 3 in that order |
| LeaderboardPage.SampleRanking | src/pages/Leaderboard.tsx:11-18 | with the sample users the ranking is Alice (285), Bob (192), David (156) |
| LeaderboardPage.TopThree | src/pages/Leaderboard.tsx:23 | the podium is a prefix of at most three entries |
| LeaderboardPage.Others | src/pages/Leaderboard.tsx:24 | podium followed by the rest is all entries; the rest is empty iff there are at most three |
| LeaderboardPage.ShowPodium | src/pages/Leaderboard.tsx:108 | the podium test `topThree.length >= 3` |
| LeaderboardPage.PodiumNeedsThree | src/pages/Leaderboard.tsx:108 | the podium shows iff there are at least three entries |
| LeaderboardPage.TopScorer | src/pages/Leaderboard.tsx:69 | `topThree[0]?.user.points \|\| 0`: the first entry's points, 0 without entries |
| LeaderboardPage.TopScorerIsMax | src/pages/Leaderboard.tsx:69 | the Top Scorer figure is an alumnus's points and no alumnus has more; 0 without alumni |
| LeaderboardPage.SumPoints | src/pages/Leaderboard.tsx:83 | the `reduce` total of the points |
| LeaderboardPage.SumPointsSort | src/pages/Leaderboard.tsx:83 | sorting does not change the points total |
| LeaderboardPage.RoundedMean | src/pages/Leaderboard.tsx:83 | `Math.round(sum / n) \|\| 0`: the integer nearest to sum / n with halves rounded up, 0 when n is 0 |
| LeaderboardPage.AveragePoints | src/pages/Leaderboard.tsx:83 | the card value is the integer nearest the mean of the ranked users' points, halves up, and 0 for an empty list |
| LeaderboardPage.AverageOfAlumni | src/pages/Leaderboard.tsx:83 | the average card is the rounded mean of the alumni's points, 0 without alumni |
| LeaderboardPage.GoldMembers | src/pages/Leaderboard.tsx:97 | the gold count is at most the number of alumni |
| LeaderboardPage.GoldMembersAtLeast151 | src/pages/Leaderboard.tsx:97 | the gold count equals the number of alumni with at least 151 points |
| ProfilePage.UserQueries | src/pages/Profile.tsx:13 | an order-preserving subsequence with exactly the queries asked by the user |
| ProfilePage.UserResources | src/pages/Profile.tsx:14 | an order-preserving subsequence with exactly the resources shared by the user |
| ProfilePage.AllAnswers | src/pages/Profile.tsx:15-17 | every answer of every query, and nothing else |
| ProfilePage.AnswersIn | src/pages/Profile.tsx:16 | one query's answers by the user, at most all its answers |
| ProfilePage.CountAnswers | src/pages/Profile.tsx:15-17 | the `reduce` itself: the running count plus each query's answers by the user, query by query |
| ProfilePage.CountAnswersIsFiltered | src/pages/Profile.tsx:15-17 | the `reduce` fold adds to its start value the number of the user's answers across the queries |
| ProfilePage.UserAnswers | src/pages/Profile.tsx:15-17 | the number of answers written by the user across all queries; between 0 and the total number of answers; 0 for no queries |
| ProfilePage.UserAnswersConcat | src/pages/Profile.tsx:15-17 | the count is additive over concatenated query lists |
| ProfilePage.UserAnswersZero | src/pages/Profile.tsx:15-17 | the count is 0 iff no answer carries the user's id |
| ProfilePage.FirstActivity | src/pages/Profile.tsx:21-22 | a student sees Questions Asked with their query count, an alumnus Questions Answered with their answer count |
| ProfilePage.Activities | src/pages/Profile.tsx:19-48 | the four cards: first activity, resources shared, total points, badges earned |
| ProfilePage.CurrentLevel | src/pages/Profile.tsx:154 | the first badge's name, or Bronze Helper when there is no badge or the name is empty |
| ProfilePage.ProfileView | src/pages/Profile.tsx:10 | nothing is computed without a signed-in user |
| DashboardPage.RecentQueries | src/pages/Dashboard.tsx:11 | the first min(2, n) queries |
| DashboardPage.RecentResources | src/pages/Dashboard.tsx:12 | the first min(2, n) resources |
| DashboardPage.TotalAlumni | src/pages/Dashboard.tsx:13 | at most the number of users, 0 iff everyone is a student |
| DashboardPage.TotalStudents | src/pages/Dashboard.tsx:14 | at most the number of users, 0 iff everyone is an alumnus |
| DashboardPage.AlumniPlusStudents | src/pages/Dashboard.tsx:13-14 | the two counts add up to the number of users |
| DashboardPage.DashboardStats | src/pages/Dashboard.tsx:16-49 | points and badge count are the user's, or 0 without a user; the alumni card is the alumni count, which with the students makes up every user; the other cards count queries and resources |
| DashboardPage.WelcomeLine | src/pages/Dashboard.tsx:59-62 | the mentoring line exactly for a signed-in alumnus, the learning line otherwise |
| QueryCardView.FindUser | src/components/Cards/QueryCard.tsx:16 | `find` returns the first user with the id, or None iff no user has it |
| QueryCardView.FindUniqueUser | src/components/Cards/QueryCard.tsx:16 | with unique ids the lookup returns that very user |
| QueryCardView.Vote | src/components/Cards/QueryCard.tsx:19 | the voted key maps to the vote and every other key is unchanged |
| QueryCardView.LastVoteWins | src/components/Cards/QueryCard.tsx:19 | a later vote on the same key replaces the earlier one, so repeating a vote changes nothing |
| QueryCardView.VotesCommute | src/components/Cards/QueryCard.tsx:19-24 | votes on different keys commute |
| QueryCardView.UpOn | src/components/Cards/QueryCard.tsx:59 | the up arrow is lit when the recorded vote is `true` |
| QueryCardView.DownOn | src/components/Cards/QueryCard.tsx:70 | the down arrow is lit when the recorded vote is `false` |
| QueryCardView.Highlights | src/components/Cards/QueryCard.tsx:59-70 | the up and down arrows are never both lit, neither is lit before a vote, and a vote lights exactly the chosen one |
| QueryCardView.SharedKeySpace | src/components/Cards/QueryCard.tsx:19-24 | in the sample forum an answer vote overwrites the question's vote because both ids are "1" |
| QueryCardView.AnswerLabel | src/components/Cards/QueryCard.tsx:102 | "Answer" exactly for one answer, "Answers" otherwise, including zero |
| QueryCardView.Card.constructor | src/components/Cards/QueryCard.tsx:13-14 | a new card has its answers closed and no votes |
| QueryCardView.Card.HandleVote | src/components/Cards/QueryCard.tsx:18-21 | the vote is recorded under the question id and the answers flag is untouched |
| QueryCardView.Card.HandleAnswerVote | src/components/Cards/QueryCard.tsx:23-26 | the vote is recorded under the answer id and the answers flag is untouched |
| QueryCardView.Card.ToggleAnswers | src/components/Cards/QueryCard.tsx:98 | the answers flag flips and the votes are untouched |
| QueryCardView.Card.ShownAnswers | src/components/Cards/QueryCard.tsx:106-108 | all answers while open, none while closed |
| LeaderboardCardView.CardBadge | src/components/Cards/LeaderboardCard.tsx:13 | the card's badge is the point badge: Gold, Silver or Bronze by the thresholds |
| LeaderboardCardView.RankColorOf | src/components/Cards/LeaderboardCard.tsx:15-20 | ranks 1, 2, 3 get their own colours and every other rank the default |
| LeaderboardCardView.RankIconOf | src/components/Cards/LeaderboardCard.tsx:22-25 | the crown exactly for ranks up to 3 |
| LeaderboardCardView.SkillsPreview | src/components/Cards/LeaderboardCard.tsx:73 | the first min(3, n) skills |
| LeaderboardCardView.MoreChip | src/components/Cards/LeaderboardCard.tsx:81-85 | a "+k more" chip iff there are more than three skills, with k the number hidden |
| LeaderboardCardView.MonthlyLine | src/components/Cards/LeaderboardCard.tsx:62 | the monthly line shows iff a figure was given and it is positive (the default is 0) |
| LeaderboardCardView.PodiumCards | src/components/Cards/LeaderboardCard.tsx:15-25 | on the leaderboard exactly the first three rows get the crown, they have three different colours, and later rows the default colour |
| SidebarNav.ShownTo | src/components/Layout/Sidebar.tsx:36 | an item shows when it has no roles list or the list includes the user's role; without a user only unrestricted items show |
| SidebarNav.FilteredItems | src/components/Layout/Sidebar.tsx:35-37 | an item is shown iff it has no roles list or the user's role is in it; items without a roles list always show |
| SidebarNav.FilteredItemsInOrder | src/components/Layout/Sidebar.tsx:35 | the shown items keep the menu order |
| SidebarNav.AnalyticsOnlyForAlumni | src/components/Layout/Sidebar.tsx:27 | Analytics is shown iff a signed-in alumnus is viewing |
| SidebarNav.MenuShape | src/components/Layout/Sidebar.tsx:21-37 | the menu is the five open items, Analytics when allowed, then Profile |
| SidebarNav.MenuSizes | src/components/Layout/Sidebar.tsx:21-37 | an alumnus sees all seven items, anyone else the six without Analytics |
| SidebarNav.HrefsDistinct | src/components/Layout/Sidebar.tsx:21-29 | no two menu items share a page |
| SidebarNav.IsActive | src/components/Layout/Sidebar.tsx:44 | an item is active when its href equals the current path |
| SidebarNav.AtMostOneActive | src/components/Layout/Sidebar.tsx:44 | for any path at most one shown item is active |
| SidebarNav.RoleLabel | src/components/Layout/Sidebar.tsx:72 | "Alumni" exactly for a signed-in alumnus, "Student" otherwise |
| SidebarNav.FooterSubtitle | src/components/Layout/Sidebar.tsx:76 | the company when present and non-empty, else the batch when present and non-empty, else "Member"; never empty |

## Left out

- Rendering: JSX, Tailwind class strings, icons, avatars and the podium layout. Only the decisions behind them are modelled, such as the colour bucket rather than its class text.
- `useAuth` and routing (src/App.tsx, src/components/Layout/Navbar.tsx): the signed-in user is an `Option<User>` parameter.
- Hook plumbing: state setters are modelled as the fields they set. The Directory and Resources search and selection setters are plain assignments, so their filters take the values as parameters instead of living in a class.
- The student-only "Ask Question" button (src/pages/Queries.tsx:62) is left out; the role check is not modelled.
- `Math.random` monthly points (src/pages/Leaderboard.tsx:19): the monthly figure is a function parameter. The `timeFilter` selector never affects data.
- The Profile progress-bar width (floating point) and the constant recent-activity list are left out.
- Date formatting (`toLocaleDateString`), `console.log`, the `onVote`, `onAnswerVote` and `onDownload` callbacks, the resource download and src/components/Cards/ProfileCard.tsx are left out: they are presentation or calls into code outside the model.
- Text.Lower: lower-cases ASCII letters only, not the full Unicode mapping of `toLowerCase`.
- Text.SortStrings: orders by character code points, whereas JavaScript compares UTF-16 code units. The two agree on the fixture strings.
- Numbers are unbounded integers; JavaScript doubles, NaN and overflow are not modelled. The average uses exact integer round-half-up.
- MockData: the fixture texts are transcribed with the answer and description strings shortened; ids, roles, points, tags and categories are exact.
- LeaderboardCardView.RankIconOf: keeps the source's `rank <= 3` test, so a rank of 0 or below would also get the crown. The leaderboard never produces such a rank.
- The missing `MessageSquare` import of the forum page is a compile-time matter with no behaviour.

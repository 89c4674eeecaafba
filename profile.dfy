/** The profile page (src/pages/Profile.tsx): the signed-in user's own questions, shared
    resources and answers, the four activity figures, and the current-level label. */
module ProfilePage {
  import opened Types
  import opened Seqs

  function AskedBy(id: string): Query -> bool
  {
    (q: Query) => q.studentId == id
  }

  function SharedBy(id: string): Resource -> bool
  {
    (r: Resource) => r.alumniId == id
  }

  function AnsweredBy(id: string): Answer -> bool
  {
    (a: Answer) => a.alumniId == id
  }

  /** `queries.filter(q => q.studentId === user.id)` */
  function UserQueries(queries: seq<Query>, id: string): (r: seq<Query>)
    ensures IsSubsequence(r, queries)
    ensures forall q :: q in r <==> q in queries && q.studentId == id
    ensures forall q :: multiset(r)[q] == if q.studentId == id then multiset(queries)[q] else 0
  {
    FilterSubsequence(queries, AskedBy(id));
    FilterCounts(queries, AskedBy(id));
    Filter(queries, AskedBy(id))
  }

  /** `resources.filter(r => r.alumniId === user.id)` */
  function UserResources(resources: seq<Resource>, id: string): (r: seq<Resource>)
    ensures IsSubsequence(r, resources)
    ensures forall res :: res in r <==> res in resources && res.alumniId == id
    ensures forall res :: multiset(r)[res] == if res.alumniId == id then multiset(resources)[res] else 0
  {
    FilterSubsequence(resources, SharedBy(id));
    FilterCounts(resources, SharedBy(id));
    Filter(resources, SharedBy(id))
  }

  /** Every answer of every query, query by query: the reference the answer count is checked against. */
  function AllAnswers(queries: seq<Query>): (r: seq<Answer>)
    ensures forall a :: a in r <==> exists q :: q in queries && a in q.answers
  {
    if queries == [] then []
    else
      assert queries == [queries[0]] + queries[1..];
      queries[0].answers + AllAnswers(queries[1..])
  }

  lemma {:induction false} AllAnswersConcat(a: seq<Query>, b: seq<Query>)
    ensures AllAnswers(a + b) == AllAnswers(a) + AllAnswers(b)
  {
    if a == [] {
      assert a + b == b;
    } else {
      assert (a + b)[0] == a[0] && (a + b)[1..] == a[1..] + b;
      AllAnswersConcat(a[1..], b);
    }
  }

  /** `query.answers.filter(answer => answer.alumniId === user.id).length` */
  function AnswersIn(query: Query, id: string): (n: nat)
    ensures n <= |query.answers|
  {
    |Filter(query.answers, AnsweredBy(id))|
  }

  /** The `reduce` step by step: add this query's answers by `id` to the running count. */
  function CountAnswers(count: int, queries: seq<Query>, id: string): int
    decreases |queries|
  {
    if queries == [] then count
    else CountAnswers(count + AnswersIn(queries[0], id), queries[1..], id)
  }

  /** The fold adds to its start value the number of answers by `id` across the queries. */
  lemma {:induction false} CountAnswersIsFiltered(count: int, queries: seq<Query>, id: string)
    ensures CountAnswers(count, queries, id) == count + |Filter(AllAnswers(queries), AnsweredBy(id))|
    decreases |queries|
  {
    if queries != [] {
      var p := AnsweredBy(id);
      var head, rest := queries[0].answers, AllAnswers(queries[1..]);
      var n := AnswersIn(queries[0], id);
      assert CountAnswers(count, queries, id) == CountAnswers(count + n, queries[1..], id);
      CountAnswersIsFiltered(count + n, queries[1..], id);
      FilterConcat(head, rest, p);
      assert |Filter(head + rest, p)| == n + |Filter(rest, p)|;
      assert AllAnswers(queries) == head + rest;
    }
  }

  /** `userAnswers`: the answers, over all queries, written by the user. */
  function UserAnswers(queries: seq<Query>, id: string): (n: int)
    ensures n == |Filter(AllAnswers(queries), AnsweredBy(id))|
    ensures 0 <= n <= |AllAnswers(queries)|
    ensures queries == [] ==> n == 0
  {
    CountAnswersIsFiltered(0, queries, id);
    CountAnswers(0, queries, id)
  }

  /** Counting the answers of two query lists separately and adding gives the count over both. */
  lemma {:induction false} UserAnswersConcat(a: seq<Query>, b: seq<Query>, id: string)
    ensures UserAnswers(a + b, id) == UserAnswers(a, id) + UserAnswers(b, id)
  {
    AllAnswersConcat(a, b);
    FilterConcat(AllAnswers(a), AllAnswers(b), AnsweredBy(id));
  }

  /** Nobody has answers in a forum where no answer carries their id. */
  lemma UserAnswersZero(queries: seq<Query>, id: string)
    ensures UserAnswers(queries, id) == 0 <==>
      forall q, a :: q in queries && a in q.answers ==> a.alumniId != id
  {
    var all := AllAnswers(queries);
    if UserAnswers(queries, id) == 0 {
      assert Filter(all, AnsweredBy(id)) == [];
      forall q, a | q in queries && a in q.answers ensures a.alumniId != id {
        assert a in all;
      }
    } else {
      var f := Filter(all, AnsweredBy(id));
      assert f[0] in f;
    }
  }

  datatype Activity = Activity(name: string, value: int)

  /** The first activity card: questions asked for a student, questions answered for alumni. */
  function FirstActivity(user: User, queries: seq<Query>): (r: Activity)
    ensures user.role == Student ==>
      r.name == "Questions Asked" && r.value == |Filter(queries, AskedBy(user.id))|
    ensures user.role == Alumni ==>
      r.name == "Questions Answered" && r.value == |Filter(AllAnswers(queries), AnsweredBy(user.id))|
    ensures r.value >= 0
  {
    if user.role == Student then Activity("Questions Asked", |UserQueries(queries, user.id)|)
    else Activity("Questions Answered", UserAnswers(queries, user.id))
  }

  /** The four activity cards of the profile. */
  function Activities(user: User, queries: seq<Query>, resources: seq<Resource>): (r: seq<Activity>)
    ensures |r| == 4 && r[0] == FirstActivity(user, queries)
    ensures r[1].name == "Resources Shared" && r[1].value == |Filter(resources, SharedBy(user.id))|
    ensures r[2].name == "Total Points" && r[2].value == user.points
    ensures r[3].name == "Badges Earned" && r[3].value == |user.badges|
  {
    [FirstActivity(user, queries),
     Activity("Resources Shared", |UserResources(resources, user.id)|),
     Activity("Total Points", user.points),
     Activity("Badges Earned", |user.badges|)]
  }

  /** `user.badges[0]?.name || 'Bronze Helper'`: an absent first badge and an empty name both
      fall back to the Bronze label. */
  function CurrentLevel(user: User): (r: string)
    ensures r != ""
    ensures user.badges == [] ==> r == "Bronze Helper"
    ensures user.badges != [] && user.badges[0].name != "" ==> r == user.badges[0].name
    ensures r == "Bronze Helper" || (user.badges != [] && r == user.badges[0].name)
  {
    if user.badges != [] && user.badges[0].name != "" then user.badges[0].name else "Bronze Helper"
  }

  /** The page computes and shows nothing without a signed-in user. */
  function ProfileView(user: Option<User>, queries: seq<Query>, resources: seq<Resource>): (r: Option<seq<Activity>>)
    ensures r.None? <==> user.None?
    ensures user.Some? ==> r == Some(Activities(user.value, queries, resources))
  {
    match user
    case None => None
    case Some(u) => Some(Activities(u, queries, resources))
  }
}

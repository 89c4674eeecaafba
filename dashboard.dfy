/** The dashboard (src/pages/Dashboard.tsx): the two most recent queries and resources, the
    stat cards, and the welcome line, for a signed-in user or none. */
module DashboardPage {
  import opened Types
  import opened Seqs
  import opened Roles

  /** `queries.slice(0, 2)` */
  function RecentQueries(queries: seq<Query>): (r: seq<Query>)
    ensures |r| == if |queries| < 2 then |queries| else 2
    ensures r <= queries
  {
    Take(queries, 2)
  }

  /** `resources.slice(0, 2)` */
  function RecentResources(resources: seq<Resource>): (r: seq<Resource>)
    ensures |r| == if |resources| < 2 then |resources| else 2
    ensures r <= resources
  {
    Take(resources, 2)
  }

  /** `users.filter(u => u.role === 'alumni').length` */
  function TotalAlumni(users: seq<User>): (n: nat)
    ensures n <= |users|
    ensures n == 0 <==> forall u :: u in users ==> u.role == Student
  {
    |AlumniOf(users)|
  }

  /** `users.filter(u => u.role === 'student').length` */
  function TotalStudents(users: seq<User>): (n: nat)
    ensures n <= |users|
    ensures n == 0 <==> forall u :: u in users ==> u.role == Alumni
  {
    var s := StudentsOf(users);
    assert s != [] ==> s[0] in s;
    |s|
  }

  /** The two counts cover every user once. */
  lemma AlumniPlusStudents(users: seq<User>)
    ensures TotalAlumni(users) + TotalStudents(users) == |users|
  {
    RolesPartition(users);
  }

  /** The figures the dashboard shows: the user's points and badge count (`user?.x || 0`),
      the size of the alumni network, and the number of queries and of resources. */
  datatype Stats = Stats(totalPoints: int, badgesEarned: nat, alumniNetwork: nat, activeQAs: nat, resources: nat)

  function DashboardStats(user: Option<User>, users: seq<User>, queries: seq<Query>, resources: seq<Resource>): (s: Stats)
    ensures user.None? ==> s.totalPoints == 0 && s.badgesEarned == 0
    ensures user.Some? ==> s.totalPoints == user.value.points && s.badgesEarned == |user.value.badges|
    ensures s.alumniNetwork == TotalAlumni(users)
    ensures s.alumniNetwork + TotalStudents(users) == |users|
    ensures s.activeQAs == |queries| && s.resources == |resources|
  {
    RolesPartition(users);
    match user
    case None => Stats(0, 0, TotalAlumni(users), |queries|, |resources|)
    case Some(u) => Stats(u.points, |u.badges|, TotalAlumni(users), |queries|, |resources|)
  }

  /** The welcome line: the mentoring line for alumni, the learning line otherwise (also
      when nobody is signed in). */
  function WelcomeLine(user: Option<User>): (r: string)
    ensures r == "Ready to mentor the next generation?" <==> user.Some? && user.value.role == Alumni
    ensures r != "Ready to mentor the next generation?" ==> r == "Ready to learn from our amazing alumni network?"
  {
    if user.Some? && user.value.role == Alumni then "Ready to mentor the next generation?"
    else "Ready to learn from our amazing alumni network?"
  }
}

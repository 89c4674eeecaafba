/** The role split the pages apply to the user list: `users.filter(u => u.role === 'alumni')`
    (Directory, Leaderboard, Dashboard) and `users.filter(u => u.role === 'student')` (Dashboard). */
module Roles {
  import opened Types
  import opened Seqs

  function AlumniOf(users: seq<User>): (r: seq<User>)
    ensures IsSubsequence(r, users)
    ensures forall u :: u in r <==> u in users && u.role == Alumni
    ensures forall u :: multiset(r)[u] == if u.role == Alumni then multiset(users)[u] else 0
  {
    FilterSubsequence(users, IsAlumnus);
    FilterCounts(users, IsAlumnus);
    Filter(users, IsAlumnus)
  }

  function StudentsOf(users: seq<User>): (r: seq<User>)
    ensures IsSubsequence(r, users)
    ensures forall u :: u in r <==> u in users && u.role == Student
    ensures forall u :: multiset(r)[u] == if u.role == Student then multiset(users)[u] else 0
  {
    FilterSubsequence(users, IsStudent);
    FilterCounts(users, IsStudent);
    Filter(users, IsStudent)
  }

  /** Every user is counted exactly once, as an alumnus or as a student: role has two values. */
  lemma {:induction false} RolesPartition(users: seq<User>)
    ensures |AlumniOf(users)| + |StudentsOf(users)| == |users|
  {
    FilterPartition(users, IsAlumnus);
    forall u | u in users ensures Not(IsAlumnus)(u) == IsStudent(u) {
    }
    FilterCongruent(users, Not(IsAlumnus), IsStudent);
  }
}

/** The portal's records (src/types/index.ts). Optional fields (`batch?`, `company?`) become
    `Option`; `role` has exactly the two values the source allows. The profile fields that no modelled
    computation reads (avatar, bio, location, linkedin, github) are omitted. */
module Types {

  datatype Option<+T> = None | Some(value: T)

  datatype Role = Student | Alumni

  datatype Badge = Badge(id: string, name: string, icon: string, description: string, pointsRequired: int)

  datatype User = User(
    id: string,
    name: string,
    email: string,
    role: Role,
    batch: Option<string>,
    company: Option<string>,
    skills: seq<string>,
    points: int,
    badges: seq<Badge>)

  datatype Answer = Answer(id: string, alumniId: string, answer: string, upvotes: int, createdAt: string)

  datatype Query = Query(
    id: string,
    studentId: string,
    question: string,
    tags: seq<string>,
    answers: seq<Answer>,
    createdAt: string,
    upvotes: int)

  datatype Resource = Resource(
    id: string,
    alumniId: string,
    title: string,
    description: string,
    link: string,
    category: string,
    downloadCount: int,
    createdAt: string)

  datatype LeaderboardEntry = LeaderboardEntry(user: User, rank: int, pointsThisMonth: int)

  /** `user.role === 'alumni'` */
  predicate IsAlumnus(u: User)
  {
    u.role == Alumni
  }

  /** `user.role === 'student'` */
  predicate IsStudent(u: User)
  {
    u.role == Student
  }
}

/** The alumni directory (src/pages/Directory.tsx): the alumni among all users, the batch,
    company and skill choice lists, and the search / filter predicate over the alumni. */
module Directory {
  import opened Types
  import opened Seqs
  import opened Text
  import opened Roles

  /** `.filter(Boolean)` over optional strings: drops absent values and empty strings. */
  function Present(xs: seq<Option<string>>): (r: seq<string>)
    ensures forall v :: v in r <==> v != "" && Some(v) in xs
  {
    if xs == [] then []
    else
      assert xs == [xs[0]] + xs[1..];
      (if xs[0].Some? && xs[0].value != "" then [xs[0].value] else []) + Present(xs[1..])
  }

  /** `Array.from(new Set(values)).sort()`: the distinct values in ascending order. */
  function SortedFacet(values: seq<string>): (r: seq<string>)
    ensures Ascending(r)
    ensures forall v :: v in r <==> v in values
  {
    var d := Dedupe(values);
    var r := SortStrings(d);
    assert forall v :: v in r <==> v in multiset(d);
    r
  }

  function BatchValues(alumni: seq<User>): (r: seq<Option<string>>)
    ensures forall v :: Some(v) in r <==> exists a :: a in alumni && a.batch == Some(v)
  {
    var r := seq(|alumni|, i requires 0 <= i < |alumni| => alumni[i].batch);
    assert forall i :: 0 <= i < |alumni| ==> r[i] == alumni[i].batch;
    r
  }

  function CompanyValues(alumni: seq<User>): (r: seq<Option<string>>)
    ensures forall v :: Some(v) in r <==> exists a :: a in alumni && a.company == Some(v)
  {
    var r := seq(|alumni|, i requires 0 <= i < |alumni| => alumni[i].company);
    assert forall i :: 0 <= i < |alumni| ==> r[i] == alumni[i].company;
    r
  }

  /** `alumni.flatMap(a => a.skills)` */
  function AllSkills(alumni: seq<User>): (r: seq<string>)
    ensures forall s :: s in r <==> exists a :: a in alumni && s in a.skills
  {
    if alumni == [] then []
    else
      assert alumni == [alumni[0]] + alumni[1..];
      alumni[0].skills + AllSkills(alumni[1..])
  }

  /** `batches`: each batch that some alumnus has, once, ascending; absent and empty batches left out. */
  function Batches(alumni: seq<User>): (r: seq<string>)
    ensures Ascending(r)
    ensures forall b :: b in r <==> b != "" && exists a :: a in alumni && a.batch == Some(b)
  {
    SortedFacet(Present(BatchValues(alumni)))
  }

  /** `companies`: each company that some alumnus has, once, ascending; absent and empty ones left out. */
  function Companies(alumni: seq<User>): (r: seq<string>)
    ensures Ascending(r)
    ensures forall c :: c in r <==> c != "" && exists a :: a in alumni && a.company == Some(c)
  {
    SortedFacet(Present(CompanyValues(alumni)))
  }

  /** `skills`: the union of all alumni skills, once each, ascending (empty labels are kept). */
  function Skills(alumni: seq<User>): (r: seq<string>)
    ensures Ascending(r)
    ensures forall s :: s in r <==> exists a :: a in alumni && s in a.skills
  {
    SortedFacet(AllSkills(alumni))
  }

  /** `skills.slice(0, 10)`: the skill dropdown offers at most the first ten skills. */
  function SkillOptions(alumni: seq<User>): (r: seq<string>)
    ensures |r| <= 10
    ensures r <= Skills(alumni)
    ensures |r| == if |Skills(alumni)| < 10 then |Skills(alumni)| else 10
    ensures |Skills(alumni)| <= 10 ==> r == Skills(alumni)
  {
    Take(Skills(alumni), 10)
  }

  /** The search box and the three dropdowns; "" means "All". */
  datatype Filters = Filters(search: string, batch: string, company: string, skill: string)

  const NoFilters := Filters("", "", "", "")

  /** `matchesSearch`: the term, case-insensitively, in the name, the company (when there is
      one) or one of the skills. */
  predicate MatchesSearch(a: User, term: string)
  {
    || Matches(a.name, term)
    || (a.company.Some? && Matches(a.company.value, term))
    || exists skill :: skill in a.skills && Matches(skill, term)
  }

  /** The conjunction the directory filter applies to one alumnus. */
  predicate Kept(a: User, f: Filters)
  {
    && MatchesSearch(a, f.search)
    && (f.batch == "" || a.batch == Some(f.batch))
    && (f.company == "" || a.company == Some(f.company))
    && (f.skill == "" || f.skill in a.skills)
  }

  function KeepFor(f: Filters): User -> bool
  {
    a => Kept(a, f)
  }

  /** `filteredAlumni`: the alumni that pass every filter, in directory order, none repeated
      more often than in the input and none invented. */
  function FilteredAlumni(alumni: seq<User>, f: Filters): (r: seq<User>)
    ensures IsSubsequence(r, alumni)
    ensures forall a :: a in r <==> a in alumni && Kept(a, f)
    ensures forall a :: multiset(r)[a] == if Kept(a, f) then multiset(alumni)[a] else 0
  {
    FilterSubsequence(alumni, KeepFor(f));
    FilterCounts(alumni, KeepFor(f));
    Filter(alumni, KeepFor(f))
  }

  /** What the directory page lists for a filter setting: only alumni ever appear. */
  function DirectoryListing(users: seq<User>, f: Filters): (r: seq<User>)
    ensures forall a :: a in r <==> a in users && a.role == Alumni && Kept(a, f)
  {
    FilteredAlumni(AlumniOf(users), f)
  }

  /** With an empty search and no selections the directory lists every alumnus. */
  lemma {:induction false} NoFiltersKeepsAll(alumni: seq<User>)
    ensures FilteredAlumni(alumni, NoFilters) == alumni
  {
    forall a | a in alumni ensures KeepFor(NoFilters)(a) {
      MatchesEmpty(a.name);
    }
    FilterKeepsAll(alumni, KeepFor(NoFilters));
  }

  /** An alumnus without a company never passes a company filter and is found by the search
      only through the name or a skill. */
  lemma NoCompany(a: User, f: Filters, term: string)
    requires a.company == None
    ensures f.company != "" ==> !Kept(a, f)
    ensures MatchesSearch(a, term) <==>
      Matches(a.name, term) || exists skill :: skill in a.skills && Matches(skill, term)
  {
  }

  /** Two filter settings constrain disjoint fields when each field is empty in one of them. */
  predicate Disjoint(f1: Filters, f2: Filters)
  {
    && (f1.search == "" || f2.search == "")
    && (f1.batch == "" || f2.batch == "")
    && (f1.company == "" || f2.company == "")
    && (f1.skill == "" || f2.skill == "")
  }

  function Pick(x: string, y: string): string
  {
    if x == "" then y else x
  }

  function Merge(f1: Filters, f2: Filters): Filters
  {
    Filters(Pick(f1.search, f2.search), Pick(f1.batch, f2.batch),
            Pick(f1.company, f2.company), Pick(f1.skill, f2.skill))
  }

  /** Filtering by one setting and then by a disjoint one is filtering once by both. */
  lemma {:induction false} FiltersCompose(alumni: seq<User>, f1: Filters, f2: Filters)
    requires Disjoint(f1, f2)
    ensures FilteredAlumni(FilteredAlumni(alumni, f1), f2) == FilteredAlumni(alumni, Merge(f1, f2))
  {
    FilterFilter(alumni, KeepFor(f1), KeepFor(f2));
    forall a | a in alumni
      ensures Both(KeepFor(f1), KeepFor(f2))(a) == KeepFor(Merge(f1, f2))(a)
    {
      MatchesEmpty(a.name);
    }
    FilterCongruent(alumni, Both(KeepFor(f1), KeepFor(f2)), KeepFor(Merge(f1, f2)));
  }

  /** The search is case-insensitive but the skill dropdown is an exact, case-sensitive list
      membership: "react" finds Alice through her skill "React", while selecting the skill
      "react" drops her. */
  lemma SkillFilterIsCaseSensitive(a: User)
    requires a.skills == ["React", "Node.js", "Python", "Machine Learning"]
    ensures Kept(a, Filters("react", "", "", ""))
    ensures !Kept(a, Filters("", "", "", "react"))
  {
    assert Lower("React") == "react";
    assert Lower("react") == "react";
    assert Matches("React", "react");
    assert "React" in a.skills;
  }
}

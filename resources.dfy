/** The resource library (src/pages/Resources.tsx): the category list, the per-category
    counts on the stat cards, the category pill, and the title / description search. */
module ResourcesPage {
  import opened Types
  import opened Seqs
  import opened Text

  function CategoryValues(resources: seq<Resource>): (r: seq<string>)
    ensures |r| == |resources|
    ensures forall i :: 0 <= i < |r| ==> r[i] == resources[i].category
  {
    seq(|resources|, i requires 0 <= i < |resources| => resources[i].category)
  }

  /** `categories`: each category once, in the order it first appears (not sorted). */
  function Categories(resources: seq<Resource>): (r: seq<string>)
    ensures Distinct(r)
    ensures forall c :: c in r <==> exists res :: res in resources && res.category == c
    ensures var values := CategoryValues(resources);
      forall i, j :: 0 <= i < j < |r| ==>
        r[i] in values && r[j] in values && IndexOf(values, r[i]) < IndexOf(values, r[j])
  {
    var values := CategoryValues(resources);
    assert forall c :: c in values <==> exists res :: res in resources && res.category == c by {
      forall c ensures c in values ==> exists res :: res in resources && res.category == c {
        if c in values {
          var i :| 0 <= i < |values| && values[i] == c;
          assert resources[i] in resources;
        }
      }
    }
    Dedupe(values)
  }

  predicate HasCategory(category: string, res: Resource)
  {
    res.category == category
  }

  function InCategory(category: string): Resource -> bool
  {
    res => HasCategory(category, res)
  }

  /** `mockResources.filter(r => r.category === category).length` on a stat card. */
  function CategoryCount(resources: seq<Resource>, category: string): (n: nat)
    ensures n <= |resources|
    ensures n == 0 <==> forall res :: res in resources ==> res.category != category
  {
    Count(resources, InCategory(category))
  }

  /** Every listed category has between one and all of the resources. */
  lemma CategoryCountBounds(resources: seq<Resource>, category: string)
    requires category in Categories(resources)
    ensures 1 <= CategoryCount(resources, category) <= |resources|
  {
  }

  /** Only the first three categories get a stat card. */
  function StatCategories(resources: seq<Resource>): (r: seq<string>)
    ensures |r| <= 3 && r <= Categories(resources)
    ensures |r| == if |Categories(resources)| < 3 then |Categories(resources)| else 3
  {
    Take(Categories(resources), 3)
  }

  /** `matchesSearch && matchesCategory` for one resource. */
  predicate ResourceKept(res: Resource, search: string, category: string)
  {
    (Matches(res.title, search) || Matches(res.description, search))
    && (category == "" || res.category == category)
  }

  function KeepResource(search: string, category: string): Resource -> bool
  {
    res => ResourceKept(res, search, category)
  }

  /** `filteredResources`: title or description contains the search (case-insensitively) and
      the category is the selected one, if any; original order kept. */
  function FilteredResources(resources: seq<Resource>, search: string, category: string): (r: seq<Resource>)
    ensures IsSubsequence(r, resources)
    ensures forall res :: res in r <==> res in resources && ResourceKept(res, search, category)
    ensures forall res ::
              multiset(r)[res] == if ResourceKept(res, search, category) then multiset(resources)[res] else 0
    ensures category != "" ==> forall res :: res in r ==> res.category == category
  {
    FilterSubsequence(resources, KeepResource(search, category));
    FilterCounts(resources, KeepResource(search, category));
    Filter(resources, KeepResource(search, category))
  }

  /** An empty search and no category list every resource. */
  lemma {:induction false} NoFilterShowsAll(resources: seq<Resource>)
    ensures FilteredResources(resources, "", "") == resources
  {
    forall res | res in resources ensures KeepResource("", "")(res) {
      MatchesEmpty(res.title);
    }
    FilterKeepsAll(resources, KeepResource("", ""));
  }

  /** Choosing a category after searching is the same as searching within the category. */
  lemma {:induction false} CategoryAfterSearch(resources: seq<Resource>, search: string, category: string)
    ensures FilteredResources(FilteredResources(resources, search, ""), "", category)
         == FilteredResources(resources, search, category)
  {
    FilterFilter(resources, KeepResource(search, ""), KeepResource("", category));
    forall res | res in resources
      ensures Both(KeepResource(search, ""), KeepResource("", category))(res)
           == KeepResource(search, category)(res)
    {
      MatchesEmpty(res.title);
    }
    FilterCongruent(resources, Both(KeepResource(search, ""), KeepResource("", category)),
                    KeepResource(search, category));
  }
}

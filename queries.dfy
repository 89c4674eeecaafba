/** The Q&A forum page (src/pages/Queries.tsx): the tag list, the question filter, and the
    page state (search box, selected tag, the "ask a question" draft) its handlers update. */
module QueriesPage {
  import opened Types
  import opened Seqs
  import opened Text
  import opened Selection

  /** `queries.flatMap(q => q.tags)` */
  function AllTagOccurrences(queries: seq<Query>): (r: seq<string>)
    ensures forall t :: t in r <==> exists q :: q in queries && t in q.tags
  {
    if queries == [] then []
    else
      assert queries == [queries[0]] + queries[1..];
      queries[0].tags + AllTagOccurrences(queries[1..])
  }

  /** `allTags`: every tag used by some query, once, in the order of its first use (not sorted). */
  function AllTags(queries: seq<Query>): (r: seq<string>)
    ensures Distinct(r)
    ensures forall t :: t in r <==> exists q :: q in queries && t in q.tags
    ensures var occurrences := AllTagOccurrences(queries);
      forall i, j :: 0 <= i < j < |r| ==>
        r[i] in occurrences && r[j] in occurrences &&
        IndexOf(occurrences, r[i]) < IndexOf(occurrences, r[j])
  {
    Dedupe(AllTagOccurrences(queries))
  }

  /** The tag pills above the list show the first six tags. */
  function TagPills(queries: seq<Query>): (r: seq<string>)
    ensures |r| <= 6 && r <= AllTags(queries)
    ensures |r| == if |AllTags(queries)| < 6 then |AllTags(queries)| else 6
  {
    Take(AllTags(queries), 6)
  }

  /** `matchesSearch && matchesTag` for one query. */
  predicate QueryKept(q: Query, search: string, tag: string)
  {
    Matches(q.question, search) && (tag == "" || tag in q.tags)
  }

  function KeepQuery(search: string, tag: string): Query -> bool
  {
    q => QueryKept(q, search, tag)
  }

  /** `filteredQueries`: the queries whose question contains the search (case-insensitively)
      and that carry the selected tag, if any, in their original order. */
  function FilteredQueries(queries: seq<Query>, search: string, tag: string): (r: seq<Query>)
    ensures IsSubsequence(r, queries)
    ensures forall q :: q in r <==> q in queries && QueryKept(q, search, tag)
    ensures forall q :: multiset(r)[q] == if QueryKept(q, search, tag) then multiset(queries)[q] else 0
    ensures tag != "" ==> forall q :: q in r ==> tag in q.tags
  {
    FilterSubsequence(queries, KeepQuery(search, tag));
    FilterCounts(queries, KeepQuery(search, tag));
    Filter(queries, KeepQuery(search, tag))
  }

  /** An empty search with no selected tag shows every query. */
  lemma {:induction false} NoFilterShowsAll(queries: seq<Query>)
    ensures FilteredQueries(queries, "", "") == queries
  {
    forall q | q in queries ensures KeepQuery("", "")(q) {
      MatchesEmpty(q.question);
    }
    FilterKeepsAll(queries, KeepQuery("", ""));
  }

  function Differs(tag: string): string -> bool
  {
    t => t != tag
  }

  /** The draft's tag list after `handleAddTag(tag)`. */
  function WithTag(tags: seq<string>, tag: string): (r: seq<string>)
    ensures tag in r && forall t :: t in r <==> t in tags || t == tag
    ensures Distinct(tags) ==> Distinct(r)
    ensures |r| == |tags| + (if tag in tags then 0 else 1)
    ensures r[..|tags|] == tags
  {
    if tag in tags then tags else tags + [tag]
  }

  /** The draft's tag list after `handleRemoveTag(tag)`. */
  function WithoutTag(tags: seq<string>, tag: string): (r: seq<string>)
    ensures IsSubsequence(r, tags)
    ensures tag !in r && forall t :: t in r <==> t in tags && t != tag
    ensures Distinct(tags) ==> Distinct(r)
  {
    FilterSubsequence(tags, Differs(tag));
    var r := Filter(tags, Differs(tag));
    assert Distinct(tags) ==> Distinct(r) by {
      if Distinct(tags) { FilterDistinct(tags, Differs(tag)); }
    }
    r
  }

  /** Adding a tag a second time changes nothing. */
  lemma AddTagIdempotent(tags: seq<string>, tag: string)
    ensures WithTag(WithTag(tags, tag), tag) == WithTag(tags, tag)
  {
  }

  /** Removing a tag undoes adding it when the draft did not have it, and removing it after
      adding it is the same as removing it directly. */
  lemma {:induction false} RemoveUndoesAdd(tags: seq<string>, tag: string)
    ensures WithoutTag(WithTag(tags, tag), tag) == WithoutTag(tags, tag)
    ensures tag !in tags ==> WithoutTag(WithTag(tags, tag), tag) == tags
  {
    if tag !in tags {
      FilterConcat(tags, [tag], Differs(tag));
      FilterKeepsAll(tags, Differs(tag));
    }
  }

  /** The state the forum page holds: the search box, the selected tag, whether the question
      form is open, and the draft question with its tags. */
  class Page {
    var searchTerm: string
    var selectedTag: string
    var showNewQuery: bool
    var question: string
    var tags: seq<string>

    /** The draft's tags stay duplicate-free: they only grow through AddTag. */
    ghost predicate Valid()
      reads this
    {
      Distinct(tags)
    }

    constructor ()
      ensures Valid()
      ensures searchTerm == "" && selectedTag == "" && !showNewQuery
      ensures question == "" && tags == []
    {
      searchTerm, selectedTag, showNewQuery := "", "", false;
      question, tags := "", [];
    }

    /** The queries the page lists for its current search and tag. */
    function Visible(queries: seq<Query>): (r: seq<Query>)
      reads this
      ensures IsSubsequence(r, queries)
      ensures forall q :: q in r <==> q in queries && QueryKept(q, searchTerm, selectedTag)
    {
      FilteredQueries(queries, searchTerm, selectedTag)
    }

    /** `handleAddTag`: append the tag unless the draft already has it. */
    method AddTag(tag: string)
      requires Valid()
      modifies this
      ensures Valid()
      ensures tags == WithTag(old(tags), tag)
      ensures question == old(question) && showNewQuery == old(showNewQuery)
      ensures searchTerm == old(searchTerm) && selectedTag == old(selectedTag)
    {
      if tag !in tags {
        tags := tags + [tag];
      }
    }

    /** `handleRemoveTag`: drop every occurrence of the tag, keeping the others in order. */
    method RemoveTag(tag: string)
      requires Valid()
      modifies this
      ensures Valid()
      ensures tags == WithoutTag(old(tags), tag)
      ensures question == old(question) && showNewQuery == old(showNewQuery)
      ensures searchTerm == old(searchTerm) && selectedTag == old(selectedTag)
    {
      tags := WithoutTag(tags, tag);
    }

    /** `handleSubmitQuery`: close the form and clear the draft (nothing is stored). */
    method SubmitQuery()
      modifies this
      ensures Valid()
      ensures !showNewQuery && question == "" && tags == []
      ensures searchTerm == old(searchTerm) && selectedTag == old(selectedTag)
    {
      showNewQuery := false;
      question, tags := "", [];
    }

    /** The "Ask Question" button opens the form; cancelling closes it and keeps the draft. */
    method SetShowNewQuery(open: bool)
      requires Valid()
      modifies this
      ensures Valid()
      ensures showNewQuery == open
      ensures question == old(question) && tags == old(tags)
      ensures searchTerm == old(searchTerm) && selectedTag == old(selectedTag)
    {
      showNewQuery := open;
    }

    /** Typing in the question box. */
    method EditQuestion(text: string)
      requires Valid()
      modifies this
      ensures Valid()
      ensures question == text && tags == old(tags) && showNewQuery == old(showNewQuery)
      ensures searchTerm == old(searchTerm) && selectedTag == old(selectedTag)
    {
      question := text;
    }

    /** Typing in the search box. */
    method SetSearch(term: string)
      requires Valid()
      modifies this
      ensures Valid()
      ensures searchTerm == term && selectedTag == old(selectedTag)
      ensures question == old(question) && tags == old(tags) && showNewQuery == old(showNewQuery)
    {
      searchTerm := term;
    }

    /** Choosing from the tag dropdown ("" is "All Tags"). */
    method SelectTag(tag: string)
      requires Valid()
      modifies this
      ensures Valid()
      ensures selectedTag == tag && searchTerm == old(searchTerm)
      ensures question == old(question) && tags == old(tags) && showNewQuery == old(showNewQuery)
    {
      selectedTag := tag;
    }

    /** Clicking a tag pill selects it, or clears the selection when it is already selected. */
    method ClickTagPill(tag: string)
      requires Valid()
      modifies this
      ensures Valid()
      ensures old(selectedTag) == tag ==> selectedTag == ""
      ensures old(selectedTag) != tag ==> selectedTag == tag
      ensures searchTerm == old(searchTerm)
      ensures question == old(question) && tags == old(tags) && showNewQuery == old(showNewQuery)
    {
      selectedTag := TogglePill(selectedTag, tag);
    }
  }

  /** A draft session: adding a tag twice keeps one copy, removing it leaves the rest in
      order, the question text is never touched, and submitting clears everything. */
  method DraftSession()
  {
    var page := new Page();
    page.EditQuestion("How do I start with AWS?");
    page.AddTag("AWS");
    page.AddTag("Cloud");
    page.AddTag("AWS");
    assert page.tags == ["AWS", "Cloud"];
    page.RemoveTag("AWS");
    assert page.tags == ["Cloud"];
    assert page.question == "How do I start with AWS?";
    page.ClickTagPill("React");
    page.ClickTagPill("React");
    assert page.selectedTag == "";
    page.SubmitQuery();
    assert page.tags == [] && page.question == "" && !page.showNewQuery;
  }
}

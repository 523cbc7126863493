/**
 * The "My Resumes" page: the fixed list of saved resumes, its text search
 * and the grid/list view switch.
 */
module Resumes {
  import opened Seqs
  import opened Text

  datatype ResumeCard = ResumeCard(
    id: string, title: string, template: string, lastUpdated: string,
    views: nat, downloads: nat, createdAt: string)

  function AllResumes(): seq<ResumeCard> {
    [ ResumeCard("1", "Software Engineer Resume", "Professional", "2 days ago", 12, 3, "May 15, 2023"),
      ResumeCard("2", "Marketing Specialist CV", "Modern", "1 week ago", 45, 8, "April 3, 2023"),
      ResumeCard("3", "UX Designer Portfolio", "Creative", "3 weeks ago", 120, 24, "January 22, 2023"),
      ResumeCard("4", "Project Manager Resume", "Minimal", "1 month ago", 67, 12, "December 10, 2022"),
      ResumeCard("5", "Data Analyst CV", "Professional", "2 months ago", 89, 15, "November 5, 2022") ]
  }

  /** The search condition: the lower-cased title or template name contains the lower-cased query. */
  predicate MatchesQuery(r: ResumeCard, query: string) {
    Includes(ToLower(r.title), ToLower(query)) || Includes(ToLower(r.template), ToLower(query))
  }

  function MatchesFilter(query: string): ResumeCard -> bool {
    (r: ResumeCard) => MatchesQuery(r, query)
  }

  /** `filteredResumes`: the matching resumes, in their original order. */
  function FilteredResumes(all: seq<ResumeCard>, query: string): (r: seq<ResumeCard>)
    ensures IsSubseq(r, all)
    ensures forall x :: multiset(r)[x] == if MatchesQuery(x, query) then multiset(all)[x] else 0
    ensures forall i :: 0 <= i < |r| ==> r[i] in all && MatchesQuery(r[i], query)
    ensures forall i :: 0 <= i < |all| && MatchesQuery(all[i], query) ==> all[i] in r
  {
    FilterIsSubseq(all, MatchesFilter(query));
    FilterCount(all, MatchesFilter(query));
    FilterMembers(all, MatchesFilter(query));
    Filter(all, MatchesFilter(query))
  }

  /** An empty search shows every resume. */
  lemma EmptyQueryKeepsAll(all: seq<ResumeCard>)
    ensures FilteredResumes(all, "") == all
  {
    forall i | 0 <= i < |all| ensures MatchesFilter("")(all[i]) {
      IncludesEmpty(ToLower(all[i].title));
    }
    FilterKeepsAll(all, MatchesFilter(""));
  }

  /** The search ignores the case of the query. */
  lemma QueryCaseInsensitive(all: seq<ResumeCard>, q: string)
    ensures FilteredResumes(all, q) == FilteredResumes(all, ToLower(q))
  {
    ToLowerIdempotent(q);
    FilterCongruent(all, MatchesFilter(q), MatchesFilter(ToLower(q)));
  }

  datatype View = Grid | List

  /** What the results area holds: a card or a table row per resume, and in the grid a closing "create new" card. */
  datatype Entry = Card(id: string) | Row(id: string) | NewResumeCard

  function Rendered(view: View, filtered: seq<ResumeCard>): (r: seq<Entry>)
    ensures view == List ==> |r| == |filtered| && forall i :: 0 <= i < |r| ==> r[i] == Row(filtered[i].id)
    ensures view == Grid ==>
      (|r| == |filtered| + 1 && r[|filtered|] == NewResumeCard &&
       forall i :: 0 <= i < |filtered| ==> r[i] == Card(filtered[i].id))
  {
    var entries := seq(|filtered|, i requires 0 <= i < |filtered| => if view == Grid then Card(filtered[i].id) else Row(filtered[i].id));
    if view == Grid then entries + [NewResumeCard] else entries
  }

  /** The resumes named by the rendered entries, in order. */
  function ShownIds(entries: seq<Entry>): seq<string> {
    if entries == [] then []
    else (if entries[0].NewResumeCard? then [] else [entries[0].id]) + ShownIds(entries[1..])
  }

  /** Switching the view changes the presentation, never which resumes are shown or their order. */
  lemma {:induction false} ViewsShowSameResumes(filtered: seq<ResumeCard>)
    ensures ShownIds(Rendered(Grid, filtered)) == ShownIds(Rendered(List, filtered))
    ensures |ShownIds(Rendered(List, filtered))| == |filtered|
  {
    IdsOfEntries(Rendered(List, filtered), filtered);
    var g := Rendered(Grid, filtered);
    ShownIdsConcat(g[..|filtered|], [NewResumeCard]);
    assert g == g[..|filtered|] + [NewResumeCard];
    IdsOfEntries(g[..|filtered|], filtered);
  }

  lemma {:induction false} IdsOfEntries(entries: seq<Entry>, filtered: seq<ResumeCard>)
    requires |entries| == |filtered|
    requires forall i :: 0 <= i < |entries| ==> !entries[i].NewResumeCard? && entries[i].id == filtered[i].id
    ensures |ShownIds(entries)| == |filtered|
    ensures forall i :: 0 <= i < |filtered| ==> ShownIds(entries)[i] == filtered[i].id
  {
    if entries != [] {
      IdsOfEntries(entries[1..], filtered[1..]);
    }
  }

  lemma {:induction false} ShownIdsConcat(a: seq<Entry>, b: seq<Entry>)
    ensures ShownIds(a + b) == ShownIds(a) + ShownIds(b)
  {
    if a != [] {
      assert (a + b)[1..] == a[1..] + b;
      ShownIdsConcat(a[1..], b);
    } else {
      assert a + b == b;
    }
  }

  /** The state of the page. */
  class ResumesPage {
    var view: View
    var searchQuery: string

    constructor ()
      ensures view == Grid && searchQuery == ""
    {
      view := Grid;
      searchQuery := "";
    }

    method SetView(v: View)
      modifies this
      ensures view == v && searchQuery == old(searchQuery)
    {
      view := v;
    }

    method SetSearchQuery(query: string)
      modifies this
      ensures searchQuery == query && view == old(view)
    {
      searchQuery := query;
    }

    /** The results area for the current state. */
    function Results(): seq<Entry>
      reads this
    {
      Rendered(view, FilteredResumes(AllResumes(), searchQuery))
    }
  }
}

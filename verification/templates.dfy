/**
 * The template gallery: the fixed catalogue, the text search, the category
 * tabs, the favourites list and the feature badges of each card.
 */
module Templates {
  import opened Seqs
  import opened Text

  /** A catalogue entry (its thumbnail URL is left out). */
  datatype Template = Template(
    id: string, name: string, description: string, category: string,
    popular: bool, premium: bool, features: seq<string>)

  function AllTemplates(): seq<Template> {
    [ Template("minimal", "Minimal", "Clean and simple design with a focus on content", "Simple", true, false,
        ["ATS-Friendly", "Clean Layout", "Customizable Colors"]),
      Template("professional", "Professional", "Traditional layout perfect for corporate applications", "Business", true, false,
        ["ATS-Friendly", "Formal Design", "Multiple Sections"]),
      Template("modern", "Modern", "Contemporary design with creative elements", "Creative", true, false,
        ["Visual Elements", "Timeline Layout", "Skill Bars"]),
      Template("creative", "Creative", "Bold layout for design and creative industries", "Creative", false, false,
        ["Unique Design", "Portfolio Section", "Color Accents"]),
      Template("executive", "Executive", "Sophisticated design for senior positions", "Business", false, true,
        ["Executive Summary", "Achievement Focus", "Elegant Design"]),
      Template("technical", "Technical", "Specialized layout for technical roles", "Technical", false, true,
        ["Skills Matrix", "Project Showcase", "Technical Focus"]),
      Template("academic", "Academic", "Formal layout for academic and research positions", "Education", false, true,
        ["Publications Section", "Research Focus", "Formal Structure"]),
      Template("startup", "Startup", "Dynamic layout for startup environments", "Creative", false, true,
        ["Impact Metrics", "Modern Design", "Skill Highlights"]) ]
  }

  /** The tabs, "All" first. */
  function Categories(): seq<string> {
    ["All", "Simple", "Business", "Creative", "Technical", "Education"]
  }

  /** Every template's category has a tab of its own. */
  lemma EveryCategoryHasTab()
    ensures forall t :: t in AllTemplates() ==> t.category in Categories()[1..]
  {
  }

  /** The search condition on lower-cased text: name, description, category or any feature contains the query. */
  predicate MatchesQuery(t: Template, query: string) {
    var q := ToLower(query);
    Includes(ToLower(t.name), q) || Includes(ToLower(t.description), q) || Includes(ToLower(t.category), q)
    || exists i :: 0 <= i < |t.features| && Includes(ToLower(t.features[i]), q)
  }

  function MatchesFilter(query: string): Template -> bool {
    (t: Template) => MatchesQuery(t, query)
  }

  /** `filteredTemplates`. */
  function FilteredTemplates(all: seq<Template>, query: string): (r: seq<Template>)
    ensures IsSubseq(r, all)
    ensures forall x :: multiset(r)[x] == if MatchesQuery(x, query) then multiset(all)[x] else 0
    ensures forall i :: 0 <= i < |r| ==> r[i] in all && MatchesQuery(r[i], query)
    ensures forall i :: 0 <= i < |all| && MatchesQuery(all[i], query) ==> all[i] in r
  {
    FilterIsSubseq(all, MatchesFilter(query));
    FilterCount(all, MatchesFilter(query));
    FilterMembers(all, MatchesFilter(query));
    Filter(all, MatchesFilter(query))
  }

  /** An empty search keeps every template. */
  lemma EmptyQueryKeepsAll(all: seq<Template>)
    ensures FilteredTemplates(all, "") == all
  {
    forall i | 0 <= i < |all| ensures MatchesFilter("")(all[i]) {
      IncludesEmpty(ToLower(all[i].name));
    }
    FilterKeepsAll(all, MatchesFilter(""));
  }

  /** The search sees the query only through its lower-cased form. */
  lemma QueryCaseInsensitive(all: seq<Template>, q1: string, q2: string)
    requires ToLower(q1) == ToLower(q2)
    ensures FilteredTemplates(all, q1) == FilteredTemplates(all, q2)
  {
    FilterCongruent(all, MatchesFilter(q1), MatchesFilter(q2));
  }

  lemma QueryLowerCased(all: seq<Template>, q: string)
    ensures FilteredTemplates(all, q) == FilteredTemplates(all, ToLower(q))
  {
    ToLowerIdempotent(q);
    QueryCaseInsensitive(all, q, ToLower(q));
  }

  function InTab(category: string): Template -> bool {
    (t: Template) => category == "All" || t.category == category
  }

  /** The cards of one tab: the search result, narrowed to the tab's category unless the tab is "All". */
  function TabTemplates(filtered: seq<Template>, category: string): (r: seq<Template>)
    ensures IsSubseq(r, filtered)
    ensures forall x :: multiset(r)[x] == if category == "All" || x.category == category then multiset(filtered)[x] else 0
    ensures forall i :: 0 <= i < |r| ==> r[i] in filtered && (category == "All" || r[i].category == category)
    ensures forall i :: 0 <= i < |filtered| && (category == "All" || filtered[i].category == category) ==> filtered[i] in r
  {
    FilterIsSubseq(filtered, InTab(category));
    FilterCount(filtered, InTab(category));
    FilterMembers(filtered, InTab(category));
    Filter(filtered, InTab(category))
  }

  /** On the "All" tab the search result is shown as it is. */
  lemma AllTabShowsEverything(filtered: seq<Template>)
    ensures TabTemplates(filtered, "All") == filtered
  {
    FilterKeepsAll(filtered, InTab("All"));
  }

  /** "No templates found" is shown exactly when no template both matches the search and belongs to the tab. */
  lemma NoTemplatesFoundIff(all: seq<Template>, query: string, category: string)
    ensures |TabTemplates(FilteredTemplates(all, query), category)| == 0 <==>
      forall i :: 0 <= i < |all| ==> !(MatchesQuery(all[i], query) && (category == "All" || all[i].category == category))
  {
    var filtered := FilteredTemplates(all, query);
    var tab := TabTemplates(filtered, category);
    if |tab| != 0 {
      var k :| 0 <= k < |filtered| && filtered[k] == tab[0];
      var j :| 0 <= j < |all| && all[j] == tab[0];
      assert MatchesQuery(all[j], query);
    }
  }

  /** `toggleFavorite`: a present id is removed everywhere, an absent one appended. */
  function Toggled(favorites: seq<string>, id: string): (r: seq<string>)
    ensures id in r <==> id !in favorites
    ensures id !in favorites ==> r == favorites + [id]
    ensures id in favorites ==> IsSubseq(r, favorites) && forall x :: x != id ==> multiset(r)[x] == multiset(favorites)[x]
  {
    if id in favorites then
      FilterIsSubseq(favorites, (f: string) => f != id);
      FilterCount(favorites, (f: string) => f != id);
      FilterMembers(favorites, (f: string) => f != id);
      Filter(favorites, (f: string) => f != id)
    else favorites + [id]
  }

  /** Toggling an absent id twice gives back the original list. */
  lemma ToggleTwiceAbsent(favorites: seq<string>, id: string)
    requires id !in favorites
    ensures Toggled(Toggled(favorites, id), id) == favorites
  {
    var p := (f: string) => f != id;
    FilterConcat(favorites, [id], p);
    FilterKeepsAll(favorites, p);
    assert Filter([id], p) == [];
  }

  /** Toggling never creates a duplicate. */
  lemma ToggleKeepsNoDuplicates(favorites: seq<string>, id: string)
    requires NoDuplicates(favorites)
    ensures NoDuplicates(Toggled(favorites, id))
  {
    if id in favorites {
      FilterNoDuplicates(favorites, (f: string) => f != id);
    }
  }

  /** The state of the gallery page. */
  class TemplatesPage {
    var searchQuery: string
    var favorites: seq<string>

    constructor ()
      ensures searchQuery == "" && favorites == []
    {
      searchQuery := "";
      favorites := [];
    }

    method SetSearchQuery(query: string)
      modifies this
      ensures searchQuery == query && favorites == old(favorites)
    {
      searchQuery := query;
    }

    method ToggleFavorite(id: string)
      modifies this
      ensures favorites == Toggled(old(favorites), id) && searchQuery == old(searchQuery)
      ensures NoDuplicates(old(favorites)) ==> NoDuplicates(favorites)
    {
      if NoDuplicates(favorites) {
        ToggleKeepsNoDuplicates(favorites, id);
      }
      favorites := Toggled(favorites, id);
    }

    /** The cards shown on one tab for the current search. */
    function Visible(category: string): seq<Template>
      reads this
    {
      TabTemplates(FilteredTemplates(AllTemplates(), searchQuery), category)
    }
  }

  /** A card's badge: a feature name, or the "+n more" count. */
  datatype Badge = Feature(name: string) | More(count: nat)

  /** The badges of a card: the first two features, then "+(n-2) more" exactly when there are more than two. */
  function FeatureBadges(features: seq<string>): (r: seq<Badge>)
    ensures |features| <= 2 ==> |r| == |features|
    ensures |features| > 2 ==> |r| == 3 && r[2] == More(|features| - 2)
    ensures forall i :: 0 <= i < |r| && i < 2 ==> i < |features| && r[i] == Feature(features[i])
  {
    var shown := if |features| < 2 then features else features[..2];
    seq(|shown|, i requires 0 <= i < |shown| => Feature(shown[i]))
      + (if |features| > 2 then [More(|features| - 2)] else [])
  }
}

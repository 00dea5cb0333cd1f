/** The node palette: the search filter over the template catalog, the
    grouping of the matching templates into category sections, which sections
    are expanded, which are hidden, the per-section count label and the
    "No nodes found" notice. */
module NodesSidebar {
  import opened Seqs
  import opened Text
  import opened WorkflowTypes
  import opened NodeCatalog

  // ---------------------------------------------------------------------
  // Search
  // ---------------------------------------------------------------------

  /** `matchesSearch`: the lower-cased query occurs in the lower-cased label or
      the lower-cased description. */
  predicate MatchesSearch(t: NodeTemplate, query: string) {
    Includes(Lower(t.displayName), Lower(query)) || Includes(Lower(t.description), Lower(query))
  }

  /** `NODE_TEMPLATES.filter(...)`, over any list of templates. */
  function FilteredTemplates(ts: seq<NodeTemplate>, query: string): seq<NodeTemplate> {
    Filter(ts, (t: NodeTemplate) => MatchesSearch(t, query))
  }

  /** The empty query matches every template, so the whole list is shown. */
  lemma EmptyQueryShowsAll(ts: seq<NodeTemplate>)
    ensures FilteredTemplates(ts, "") == ts
  {
    forall i | 0 <= i < |ts| ensures MatchesSearch(ts[i], "") {
      IncludesEmpty(Lower(ts[i].displayName));
    }
    FilterKeepsAll(ts, (t: NodeTemplate) => MatchesSearch(t, ""));
  }

  /** The search ignores the case of ASCII letters in the query. */
  lemma SearchIgnoresCase(ts: seq<NodeTemplate>, query: string)
    ensures FilteredTemplates(ts, Lower(query)) == FilteredTemplates(ts, query)
  {
    LowerIdempotent(query);
    FilterCongruent(ts, (t: NodeTemplate) => MatchesSearch(t, Lower(query)), (t: NodeTemplate) => MatchesSearch(t, query));
  }

  lemma LowerAppend(a: string, b: string)
    ensures Lower(a + b) == Lower(a) + Lower(b)
  {
  }

  /** A string that includes `a + b` includes `a`. */
  lemma IncludesPrefix(s: string, a: string, b: string)
    requires Includes(s, a + b)
    ensures Includes(s, a)
  {
    var i: nat :| OccursAt(s, a + b, i);
    assert s[i..i + |a|] == (a + b)[..|a|];
    assert OccursAt(s, a, i);
  }

  /** Typing more characters never brings a template back: every template shown
      for the longer query is shown for the shorter one. */
  lemma TypingNarrowsResults(ts: seq<NodeTemplate>, query: string, more: string)
    ensures forall t :: t in FilteredTemplates(ts, query + more) ==> t in FilteredTemplates(ts, query)
  {
    LowerAppend(query, more);
    forall t | t in FilteredTemplates(ts, query + more) ensures MatchesSearch(t, query) {
      if Includes(Lower(t.displayName), Lower(query) + Lower(more)) {
        IncludesPrefix(Lower(t.displayName), Lower(query), Lower(more));
      } else {
        IncludesPrefix(Lower(t.description), Lower(query), Lower(more));
      }
    }
  }

  // ---------------------------------------------------------------------
  // Grouping
  // ---------------------------------------------------------------------

  /** The shown templates whose category, lower-cased with whitespace runs
      turned into `-`, equals `id`. */
  function InCategory(shown: seq<NodeTemplate>, id: string): seq<NodeTemplate> {
    Filter(shown, (t: NodeTemplate) => Slug(t.category) == id)
  }

  /** `NODE_CATEGORIES.reduce(...)`: one entry per category id, written in
      category order (a repeated id keeps the last write). */
  function Grouped(cats: seq<NodeCategory>, shown: seq<NodeTemplate>): map<string, seq<NodeTemplate>>
    decreases |cats|
  {
    if cats == [] then map[]
    else
      var last := cats[|cats| - 1];
      Grouped(cats[..|cats| - 1], shown)[last.id := InCategory(shown, last.id)]
  }

  /** `groupedTemplates[category.id] || []`. */
  function Section(grouped: map<string, seq<NodeTemplate>>, id: string): seq<NodeTemplate> {
    if id in grouped then grouped[id] else []
  }

  /** The grouping has exactly the category ids as keys, and each holds the
      shown templates of that category, in their shown order. */
  lemma {:induction false} GroupedSpec(cats: seq<NodeCategory>, shown: seq<NodeTemplate>)
    ensures forall id :: id in Grouped(cats, shown) <==> id in IdsOf(cats)
    ensures forall id :: id in Grouped(cats, shown) ==> Grouped(cats, shown)[id] == InCategory(shown, id)
    decreases |cats|
  {
    if cats != [] {
      var init, last := cats[..|cats| - 1], cats[|cats| - 1];
      GroupedSpec(init, shown);
      assert IdsOf(cats) == IdsOf(init) + [last.id];
      assert Grouped(cats, shown) == Grouped(init, shown)[last.id := InCategory(shown, last.id)];
    }
  }

  /** Each category's section lists the shown templates of that category. */
  lemma SectionContents(cats: seq<NodeCategory>, shown: seq<NodeTemplate>, j: nat)
    requires j < |cats|
    ensures Section(Grouped(cats, shown), cats[j].id) == InCategory(shown, cats[j].id)
    ensures forall t :: t in Section(Grouped(cats, shown), cats[j].id) <==> t in shown && Slug(t.category) == cats[j].id
  {
    GroupedSpec(cats, shown);
    assert IdsOf(cats)[j] == cats[j].id;
  }

  /** Category ids are distinct and every template's category slug is one of them. */
  predicate CategoriesCover(ts: seq<NodeTemplate>, cats: seq<NodeCategory>) {
    && (forall j, k :: 0 <= j < k < |cats| ==> cats[j].id != cats[k].id)
    && (forall i :: 0 <= i < |ts| ==> Slug(ts[i].category) in IdsOf(cats))
  }

  /** The catalog's categories cover its templates. */
  lemma CatalogCategoriesCover()
    ensures CategoriesCover(NodeTemplates, NodeCategories)
  {
    TemplateCategoriesAreIds();
    CategoryIdsDistinct();
    forall i | 0 <= i < |NodeTemplates| ensures Slug(NodeTemplates[i].category) in IdsOf(NodeCategories) {
      assert IsCategoryId(Slug(NodeTemplates[i].category));
      var j :| 0 <= j < |NodeCategories| && NodeCategories[j].id == Slug(NodeTemplates[i].category);
      assert IdsOf(NodeCategories)[j] == NodeCategories[j].id;
    }
  }

  /** The sections for a query: the matching templates of `ts` grouped under
      the ids of `cats` (the sidebar passes the template catalog and the
      category list). */
  function Sections(ts: seq<NodeTemplate>, cats: seq<NodeCategory>, query: string): map<string, seq<NodeTemplate>> {
    Grouped(cats, FilteredTemplates(ts, query))
  }

  /** The templates under category `j`'s heading for a query. */
  function CategorySection(ts: seq<NodeTemplate>, cats: seq<NodeCategory>, query: string, j: nat): seq<NodeTemplate>
    requires j < |cats|
  {
    Section(Sections(ts, cats, query), cats[j].id)
  }

  /** Under covering categories, every shown template of `ts` sits in exactly
      one section. */
  lemma SectionsPartition(ts: seq<NodeTemplate>, cats: seq<NodeCategory>, shown: seq<NodeTemplate>, t: NodeTemplate)
    requires CategoriesCover(ts, cats)
    requires t in shown && t in ts
    ensures exists j :: 0 <= j < |cats| && t in Section(Grouped(cats, shown), cats[j].id)
    ensures forall j, k :: 0 <= j < |cats| && 0 <= k < |cats| ==>
      (t in Section(Grouped(cats, shown), cats[j].id) && t in Section(Grouped(cats, shown), cats[k].id) ==> j == k)
  {
    var i :| 0 <= i < |ts| && ts[i] == t;
    var j :| 0 <= j < |cats| && IdsOf(cats)[j] == Slug(t.category);
    SectionContents(cats, shown, j);
    forall j1, k1 | 0 <= j1 < |cats| && 0 <= k1 < |cats| &&
      t in Section(Grouped(cats, shown), cats[j1].id) && t in Section(Grouped(cats, shown), cats[k1].id)
      ensures j1 == k1
    {
      SectionContents(cats, shown, j1);
      SectionContents(cats, shown, k1);
    }
  }

  /** Every template the search shows appears under exactly one category heading. */
  lemma ShownTemplateInOneSection(ts: seq<NodeTemplate>, cats: seq<NodeCategory>, query: string, t: NodeTemplate)
    requires CategoriesCover(ts, cats)
    requires t in FilteredTemplates(ts, query)
    ensures exists j :: 0 <= j < |cats| && t in CategorySection(ts, cats, query, j)
    ensures forall j, k :: 0 <= j < |cats| && 0 <= k < |cats| ==>
      (t in CategorySection(ts, cats, query, j) && t in CategorySection(ts, cats, query, k) ==> j == k)
  {
    var shown := FilteredTemplates(ts, query);
    assert t in ts;
    SectionsPartition(ts, cats, shown, t);
    assert forall j :: 0 <= j < |cats| ==> CategorySection(ts, cats, query, j) == Section(Grouped(cats, shown), cats[j].id);
  }

  /** Under covering categories, nothing is shown exactly when every section is empty. */
  lemma AllSectionsEmpty(ts: seq<NodeTemplate>, cats: seq<NodeCategory>, shown: seq<NodeTemplate>)
    requires CategoriesCover(ts, cats)
    requires forall t :: t in shown ==> t in ts
    ensures shown == [] <==> forall j :: 0 <= j < |cats| ==> Section(Grouped(cats, shown), cats[j].id) == []
  {
    if shown == [] {
      forall j | 0 <= j < |cats| ensures Section(Grouped(cats, shown), cats[j].id) == [] {
        SectionContents(cats, shown, j);
      }
    } else {
      assert shown[0] in shown;
      SectionsPartition(ts, cats, shown, shown[0]);
    }
  }

  // ---------------------------------------------------------------------
  // Section visibility, counts and the empty notice
  // ---------------------------------------------------------------------

  /** `templates.length === 0 && searchQuery`: a section is dropped only when it
      is empty during a search. */
  predicate SectionHidden(ts: seq<NodeTemplate>, cats: seq<NodeCategory>, query: string, j: nat)
    requires j < |cats|
  {
    |CategorySection(ts, cats, query, j)| == 0 && query != ""
  }

  /** `filteredTemplates.length === 0 && searchQuery`. */
  predicate NoNodesFound(ts: seq<NodeTemplate>, query: string) {
    |FilteredTemplates(ts, query)| == 0 && query != ""
  }

  /** Without a query every section is drawn. Under covering categories, the
      notice shows exactly when a search hides every section. */
  lemma NoticeIffAllSectionsHidden(ts: seq<NodeTemplate>, cats: seq<NodeCategory>, query: string)
    requires CategoriesCover(ts, cats)
    ensures query == "" ==> forall j :: 0 <= j < |cats| ==> !SectionHidden(ts, cats, query, j)
    ensures NoNodesFound(ts, query) <==>
      query != "" && forall j :: 0 <= j < |cats| ==> SectionHidden(ts, cats, query, j)
  {
    var shown := FilteredTemplates(ts, query);
    assert forall x :: x in shown ==> x in ts;
    AllSectionsEmpty(ts, cats, shown);
    forall j | 0 <= j < |cats|
      ensures SectionHidden(ts, cats, query, j) <==> Section(Grouped(cats, shown), cats[j].id) == [] && query != ""
    {
    }
  }


  /** `{n} node{n !== 1 ? 's' : ''}`. */
  function CountLabel(n: nat): string {
    NatToString(n) + " node" + (if n != 1 then "s" else "")
  }

  /** The label starts with the decimal digits of the count, then the word
      `node`, plural exactly when the count is not one. */
  lemma CountLabelReads(n: nat)
    ensures var d := NatToString(n);
      && |CountLabel(n)| >= |d| + 5
      && (forall i :: 0 <= i < |d| ==> IsDigit(CountLabel(n)[i]))
      && DigitsValue(CountLabel(n)[..|d|]) == n
      && CountLabel(n)[|d|..|d| + 5] == " node"
    ensures CountLabel(n)[|CountLabel(n)| - 1] == 's' <==> n != 1
  {
    var d := NatToString(n);
    NatToStringRoundTrip(n);
    assert CountLabel(n)[..|d|] == d;
  }

  /** `template.requiredCredentials.length > 0`: the "Requires auth" badge. */
  predicate RequiresAuth(t: NodeTemplate) {
    |t.requiredCredentials| > 0
  }

  /** The badge shows on a catalog entry exactly when its kind needs a credential. */
  lemma RequiresAuthBadges()
    ensures forall i :: 0 <= i < |NodeTemplates| ==>
      (RequiresAuth(NodeTemplates[i]) <==> !NeedsNoCredential(NodeTemplates[i].nodeType))
  {
    CredentialCounts();
  }

  // ---------------------------------------------------------------------
  // Expanded sections
  // ---------------------------------------------------------------------

  /** The sections expanded when the sidebar first renders. */
  const InitiallyExpanded: set<string> := {"core", "ai", "action-in-an-app"}

  /** The first three categories start expanded, and only they. */
  lemma InitiallyExpandedCategories()
    ensures InitiallyExpanded == {NodeCategories[0].id, NodeCategories[1].id, NodeCategories[2].id}
    ensures forall id :: id in InitiallyExpanded ==> IsCategoryId(id)
  {
    assert NodeCategories[0].id == "core" && NodeCategories[1].id == "ai" && NodeCategories[2].id == "action-in-an-app";
  }

  /** `toggleCategory`: a copy of the set with `id` removed if present, added otherwise. */
  function Toggled(s: set<string>, id: string): set<string> {
    if id in s then s - {id} else s + {id}
  }

  /** Toggling flips the one id, leaves every other id as it was, and toggling
      twice restores the set. */
  lemma ToggleSpec(s: set<string>, id: string)
    ensures id in Toggled(s, id) <==> id !in s
    ensures forall x :: x != id ==> (x in Toggled(s, id) <==> x in s)
    ensures Toggled(Toggled(s, id), id) == s
  {
  }

  /** The sidebar's own state: the search text and the expanded section ids. */
  class SidebarState {
    var searchQuery: string
    var expanded: set<string>

    constructor ()
      ensures searchQuery == "" && expanded == InitiallyExpanded
    {
      searchQuery := "";
      expanded := InitiallyExpanded;
    }

    /** The search box's `onChange`. */
    method SetSearchQuery(query: string)
      modifies this
      ensures searchQuery == query && expanded == old(expanded)
    {
      searchQuery := query;
    }

    /** A section heading's `onOpenChange`. */
    method ToggleCategory(id: string)
      modifies this
      ensures expanded == Toggled(old(expanded), id) && searchQuery == old(searchQuery)
    {
      expanded := Toggled(expanded, id);
    }
  }
}

/**
 * The tech-updates section: it fetches the published updates once and shows
 * them under a category selector whose "All" entry shows everything; a
 * category matches only when it is exactly equal.
 */
module TechUpdates {
  import opened Shared
  import opened Store

  /** A row of `tech_updates`. */
  datatype TechUpdate = TechUpdate(
    id: string,
    title: string,
    content: string,
    excerpt: string,
    category: string,
    imageUrl: Option<string>,
    published: bool,
    createdAt: string,
    updatedAt: string)

  const Categories: seq<string> := ["All", "AI", "Web3", "Tech News", "Innovation", "Platform News"]

  predicate InCategory(u: TechUpdate, selected: string) {
    u.category == selected
  }

  predicate Shown(u: TechUpdate, selected: string) {
    selected == "All" || InCategory(u, selected)
  }

  /** `filteredUpdates`: everything under "All"; otherwise the updates whose
    * category is exactly the selection, in their fetched order. */
  function FilterUpdates(list: seq<TechUpdate>, selected: string): (r: seq<TechUpdate>)
    ensures selected == "All" ==> r == list
    ensures |r| <= |list|
    ensures forall i :: 0 <= i < |r| ==> r[i] in list && Shown(r[i], selected)
    ensures forall i :: 0 <= i < |list| && Shown(list[i], selected) ==> list[i] in r
  {
    if selected == "All" then list else Filter(list, u => InCategory(u, selected))
  }

  lemma FilterUpdatesKeepsOrder(list: seq<TechUpdate>, selected: string, u: TechUpdate)
    ensures IsSubsequence(FilterUpdates(list, selected), list)
    ensures multiset(FilterUpdates(list, selected))[u] == if Shown(u, selected) then multiset(list)[u] else 0
  {
    if selected == "All" {
      SubsequenceOfItself(list);
    } else {
      FilterIsSubsequence(list, u => InCategory(u, selected));
      FilterCount(list, u => InCategory(u, selected), u);
    }
  }

  lemma FilterUpdatesIdempotent(list: seq<TechUpdate>, selected: string)
    ensures FilterUpdates(FilterUpdates(list, selected), selected) == FilterUpdates(list, selected)
  {
    if selected != "All" {
      FilterIdempotent(list, u => InCategory(u, selected));
    }
  }

  /** The match is case-sensitive: "ai" does not show an update filed under "AI". */
  lemma FilterUpdatesCaseSensitive(u: TechUpdate)
    requires u.category == "AI"
    ensures FilterUpdates([u], "ai") == [] && FilterUpdates([u], "AI") == [u]
  {
    assert !InCategory(u, "ai");
    assert Filter([u], v => InCategory(v, "ai")) == Filter([u][1..], v => InCategory(v, "ai"));
    assert Filter([u], v => InCategory(v, "AI")) == [u] + Filter([u][1..], v => InCategory(v, "AI"));
  }

  /** Each category the selector offers, other than "All", shows only the
    * updates filed under it, so no update shows under two of them. */
  lemma OfferedCategoriesDisjoint(list: seq<TechUpdate>, u: TechUpdate, i: int, j: int)
    requires 1 <= i < |Categories| && 1 <= j < |Categories| && i != j
    ensures u in FilterUpdates(list, Categories[i]) ==> u.category == Categories[i]
    ensures !(u in FilterUpdates(list, Categories[i]) && u in FilterUpdates(list, Categories[j]))
  {
    assert Categories[i] != "All" && Categories[j] != "All" && Categories[i] != Categories[j];
  }

  /** The placeholder under the list: nothing is loading and no fetched update is shown. */
  function EmptyState(list: seq<TechUpdate>, selected: string, loading: bool): (shown: bool)
    ensures shown <==> !loading && forall i :: 0 <= i < |list| ==> !Shown(list[i], selected)
  {
    var r := FilterUpdates(list, selected);
    assert |r| > 0 <== exists i :: 0 <= i < |list| && Shown(list[i], selected);
    assert |r| > 0 ==> Shown(r[0], selected) && exists i :: 0 <= i < |list| && list[i] == r[0];
    |r| == 0 && !loading
  }

  class Section {
    var updates: seq<TechUpdate>
    var loading: bool
    var selectedCategory: string

    constructor()
      ensures updates == [] && loading && selectedCategory == "All"
    {
      updates := [];
      loading := true;
      selectedCategory := "All";
    }

    function Visible(): seq<TechUpdate>
      reads this
    {
      FilterUpdates(updates, selectedCategory)
    }

    /** `fetchUpdates` with the store's answer: rows replace the list (no rows:
      * an empty list), an error keeps it; loading ends either way. */
    method Fetch(answer: Query<TechUpdate>)
      modifies this
      ensures !loading && selectedCategory == old(selectedCategory)
      ensures answer.Rows? ==> updates == if answer.data.Some? then answer.data.value else []
      ensures answer.QueryFailed? ==> updates == old(updates)
    {
      if answer.Rows? {
        updates := if answer.data.Some? then answer.data.value else [];
      }
      loading := false;
    }

    method Select(category: string)
      modifies this
      ensures selectedCategory == category && updates == old(updates) && loading == old(loading)
      ensures category == "All" ==> Visible() == updates
    {
      selectedCategory := category;
    }
  }
}

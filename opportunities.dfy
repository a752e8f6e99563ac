/**
 * The opportunities section: it fetches the active opportunities once, shows
 * them under a type selector whose "All" entry shows everything, colours each
 * card by its type, and shows a placeholder when nothing matches.
 */
module Opportunities {
  import opened Shared
  import opened Store

  /** A row of `opportunities`; `kind` is its `type` column. */
  datatype Opportunity = Opportunity(
    id: string,
    title: string,
    description: string,
    kind: string,
    location: string,
    company: string,
    applyUrl: Option<string>,
    active: bool,
    createdAt: string,
    expiresAt: Option<string>)

  /** The selector's entries, "All" first. */
  const Types: seq<string> := ["All", "Internship", "Job", "Project", "Collaboration"]

  /** `opp.type.toLowerCase() === selectedType.toLowerCase()` */
  predicate OfType(o: Opportunity, selected: string) {
    LowerAscii(o.kind) == LowerAscii(selected)
  }

  predicate Shown(o: Opportunity, selected: string) {
    selected == "All" || OfType(o, selected)
  }

  /** `filteredOpportunities`: everything under "All"; otherwise the rows whose
    * type matches the selection ignoring case, in their fetched order. */
  function FilterOpportunities(list: seq<Opportunity>, selected: string): (r: seq<Opportunity>)
    ensures selected == "All" ==> r == list
    ensures |r| <= |list|
    ensures forall i :: 0 <= i < |r| ==> r[i] in list && Shown(r[i], selected)
    ensures forall i :: 0 <= i < |list| && Shown(list[i], selected) ==> list[i] in r
  {
    if selected == "All" then list else Filter(list, o => OfType(o, selected))
  }

  /** The shown rows keep the fetched order, and each shown row appears as
    * often as it was fetched. */
  lemma FilterOpportunitiesKeepsOrder(list: seq<Opportunity>, selected: string, o: Opportunity)
    ensures IsSubsequence(FilterOpportunities(list, selected), list)
    ensures multiset(FilterOpportunities(list, selected))[o] == if Shown(o, selected) then multiset(list)[o] else 0
  {
    if selected == "All" {
      SubsequenceOfItself(list);
    } else {
      FilterIsSubsequence(list, o => OfType(o, selected));
      FilterCount(list, o => OfType(o, selected), o);
    }
  }

  lemma FilterOpportunitiesIdempotent(list: seq<Opportunity>, selected: string)
    ensures FilterOpportunities(FilterOpportunities(list, selected), selected) == FilterOpportunities(list, selected)
  {
    if selected != "All" {
      FilterIdempotent(list, o => OfType(o, selected));
    }
  }

  /** Selections that differ only in case show the same rows. */
  lemma FilterOpportunitiesIgnoresCase(list: seq<Opportunity>, a: string, b: string)
    requires a != "All" && b != "All" && LowerAscii(a) == LowerAscii(b)
    ensures FilterOpportunities(list, a) == FilterOpportunities(list, b)
  {
    FilterCongruent(list, o => OfType(o, a), o => OfType(o, b));
  }

  /** The placeholder under the list: nothing is loading and no fetched row is shown. */
  function EmptyState(list: seq<Opportunity>, selected: string, loading: bool): (shown: bool)
    ensures shown <==> !loading && forall i :: 0 <= i < |list| ==> !Shown(list[i], selected)
  {
    var r := FilterOpportunities(list, selected);
    assert |r| > 0 <== exists i :: 0 <= i < |list| && Shown(list[i], selected);
    assert |r| > 0 ==> Shown(r[0], selected) && exists i :: 0 <= i < |list| && list[i] == r[0];
    |r| == 0 && !loading
  }

  const Gray: string := "from-gray-500 to-gray-600"

  const TypeColors: map<string, string> := map[
    "internship" := "from-blue-500 to-blue-600",
    "job" := "from-cyan-500 to-cyan-600",
    "project" := "from-green-500 to-green-600",
    "collaboration" := "from-purple-500 to-purple-600"]

  /** `getTypeColor`: the colour of the lower-cased type, gray for any other. */
  function TypeColor(kind: string): (colour: string)
    ensures LowerAscii(kind) in TypeColors ==> colour == TypeColors[LowerAscii(kind)]
    ensures LowerAscii(kind) !in TypeColors ==> colour == Gray
  {
    var key := LowerAscii(kind);
    if key in TypeColors then TypeColors[key] else Gray
  }

  /** Every type the selector offers, other than "All", has a colour of its
    * own; none of them falls back to gray. */
  lemma OfferedTypesColoured()
    ensures forall i :: 1 <= i < |Types| ==> TypeColor(Types[i]) != Gray
    ensures forall i, j :: 1 <= i < j < |Types| ==> TypeColor(Types[i]) != TypeColor(Types[j])
  {
    assert LowerAscii("Internship") == "internship";
    assert LowerAscii("Job") == "job";
    assert LowerAscii("Project") == "project";
    assert LowerAscii("Collaboration") == "collaboration";
  }

  class Section {
    var opportunities: seq<Opportunity>
    var loading: bool
    var selectedType: string

    constructor()
      ensures opportunities == [] && loading && selectedType == "All"
    {
      opportunities := [];
      loading := true;
      selectedType := "All";
    }

    /** The rows on screen. */
    function Visible(): seq<Opportunity>
      reads this
    {
      FilterOpportunities(opportunities, selectedType)
    }

    /** `fetchOpportunities` with the store's answer: rows replace the list (no
      * rows: an empty list), an error keeps it; loading ends either way. */
    method Fetch(answer: Query<Opportunity>)
      modifies this
      ensures !loading && selectedType == old(selectedType)
      ensures answer.Rows? ==> opportunities == if answer.data.Some? then answer.data.value else []
      ensures answer.QueryFailed? ==> opportunities == old(opportunities)
    {
      if answer.Rows? {
        opportunities := if answer.data.Some? then answer.data.value else [];
      }
      // `finally`
      loading := false;
    }

    /** A selector button: no new query; "All" shows the fetched list again. */
    method Select(kind: string)
      modifies this
      ensures selectedType == kind && opportunities == old(opportunities) && loading == old(loading)
      ensures kind == "All" ==> Visible() == opportunities
    {
      selectedType := kind;
    }
  }
}

/** The Zyme lookup page, pages/Zyme.tsx: a name search over the Zyme collection that shows
    nothing until something is typed. */
module Zyme {
  import opened Types
  import opened Seqs
  import opened Strings

  predicate NameContains(e: Entity, search: string)
  {
    Contains(Lower(e.name), Lower(search))
  }

  /** `results`: empty for an empty search, otherwise the entries whose name contains the search
      ignoring case, in collection order. */
  function Results(zymeData: seq<Entity>, search: string): (r: seq<Entity>)
    ensures search == "" ==> r == []
    ensures search != "" ==> forall e :: e in r <==> e in zymeData && NameContains(e, search)
    ensures IsSubsequence(r, zymeData)
    ensures search != "" ==> forall e :: multiset(r)[e] == if NameContains(e, search) then multiset(zymeData)[e] else 0
  {
    if search != "" then
      var keep := (e: Entity) => NameContains(e, search);
      FilterMultiplicity(zymeData, keep);
      Filter(zymeData, keep)
    else []
  }

  /** Only names are searched: two collections whose entries have the same names position by
      position give results with the same names position by position, whatever their
      addresses and types. */
  lemma ResultsSeeNamesOnly(a: seq<Entity>, b: seq<Entity>, search: string)
    requires |a| == |b| && forall i :: 0 <= i < |a| ==> a[i].name == b[i].name
    ensures |Results(a, search)| == |Results(b, search)|
    ensures forall i :: 0 <= i < |Results(a, search)| ==> Results(a, search)[i].name == Results(b, search)[i].name
  {
    if search != "" {
      var keep := (e: Entity) => NameContains(e, search);
      FilterSameProjection(a, b, keep, (e: Entity) => e.name);
    }
  }
}

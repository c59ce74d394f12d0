/** The two entity management pages, pages/Customers.tsx and pages/RPL.tsx, which differ only
    in the collection they work on: the duplicate detector, the search filter, and the save,
    upload and bulk-delete handlers. */
module EntityPages {
  import opened Types
  import opened Seqs
  import opened Strings
  import opened Collections
  import opened DataContext

  // ---------------------------------------------------------------------------
  // Duplicate detection

  /** `${name.trim().toLowerCase()}|${address.trim().toLowerCase()}` */
  function DupKey(e: Entity): string
  {
    Lower(Trim(e.name)) + "|" + Lower(Trim(e.address))
  }

  /** How many entries of `s` have duplicate key `k`. */
  function KeyCount(s: seq<Entity>, k: string): nat
  {
    CountBy(s, DupKey, k)
  }

  /** The entries whose key occurs at least twice, in their original order. */
  function Duplicates(s: seq<Entity>): (r: seq<Entity>)
    ensures forall e :: e in r <==> e in s && KeyCount(s, DupKey(e)) >= 2
    ensures IsSubsequence(r, s)
    ensures forall e :: multiset(r)[e] == if KeyCount(s, DupKey(e)) >= 2 then multiset(s)[e] else 0
  {
    var keep := (e: Entity) => KeyCount(s, DupKey(e)) >= 2;
    FilterMultiplicity(s, keep);
    Filter(s, keep)
  }

  /** The entry at position `i` is returned exactly when an entry at another position has
      the same key. */
  lemma DuplicateIffTwin(s: seq<Entity>, i: nat)
    requires i < |s|
    ensures s[i] in Duplicates(s) <==> exists j :: 0 <= j < |s| && j != i && DupKey(s[j]) == DupKey(s[i])
  {
    CountByTwin(s, DupKey, i);
  }

  /** Every returned entry's key occurs at least twice among the returned entries too, so
      each one is shown next to its twin, and asking again for the duplicates of the
      duplicates changes nothing. */
  lemma {:induction false} DuplicatesClosed(s: seq<Entity>)
    ensures forall e :: e in Duplicates(s) ==> KeyCount(Duplicates(s), DupKey(e)) >= 2
    ensures Duplicates(Duplicates(s)) == Duplicates(s)
  {
    var keep := (e: Entity) => KeyCount(s, DupKey(e)) >= 2;
    var d := Duplicates(s);
    forall e | e in d
      ensures KeyCount(d, DupKey(e)) == KeyCount(s, DupKey(e))
    {
      CountByFilterKeeps(s, keep, DupKey, DupKey(e));
    }
    FilterKeepsAll(d, (e: Entity) => KeyCount(d, DupKey(e)) >= 2);
  }

  /** `getDuplicates`: one pass collects the keys met more than once (`duplicateKeys`), then the
      entries whose key is among them are kept. */
  method FindDuplicates(s: seq<Entity>) returns (r: seq<Entity>)
    ensures r == Duplicates(s)
  {
    var duplicateKeys := RepeatedKeys(s, DupKey);
    r := Filter(s, (e: Entity) => DupKey(e) in duplicateKeys);
    FilterSameOn(s, (e: Entity) => DupKey(e) in duplicateKeys, (e: Entity) => KeyCount(s, DupKey(e)) >= 2);
  }

  // ---------------------------------------------------------------------------
  // Search

  /** The name or the address contains the query, ignoring case. */
  predicate MatchesQuery(e: Entity, query: string)
  {
    Contains(Lower(e.name), Lower(query)) || Contains(Lower(e.address), Lower(query))
  }

  /** The list shown when the duplicates toggle is off. */
  function SearchResults(s: seq<Entity>, query: string): (r: seq<Entity>)
    ensures forall e :: e in r <==> e in s && MatchesQuery(e, query)
    ensures IsSubsequence(r, s)
    ensures forall e :: multiset(r)[e] == if MatchesQuery(e, query) then multiset(s)[e] else 0
  {
    var keep := (e: Entity) => MatchesQuery(e, query);
    FilterMultiplicity(s, keep);
    Filter(s, keep)
  }

  /** An empty query shows the whole collection. */
  lemma EmptyQueryShowsAll(s: seq<Entity>)
    ensures SearchResults(s, "") == s
  {
    forall e | e in s
      ensures MatchesQuery(e, "")
    {
      ContainsEmpty(Lower(e.name));
    }
    FilterKeepsAll(s, (e: Entity) => MatchesQuery(e, ""));
  }

  /** `filteredData`: the duplicates when the toggle is on (the query is then ignored),
      otherwise the search results; either way a subsequence of the collection. */
  function FilteredData(s: seq<Entity>, showDuplicatesOnly: bool, query: string): (r: seq<Entity>)
    ensures showDuplicatesOnly ==> r == Duplicates(s)
    ensures !showDuplicatesOnly ==> forall e :: e in r <==> e in s && MatchesQuery(e, query)
    ensures !showDuplicatesOnly ==> forall e :: multiset(r)[e] == if MatchesQuery(e, query) then multiset(s)[e] else 0
    ensures IsSubsequence(r, s)
  {
    if showDuplicatesOnly then Duplicates(s) else SearchResults(s, query)
  }

  // ---------------------------------------------------------------------------
  // Upload

  /** The upload keeps the rows with a name and an address. */
  function ValidRows(rows: seq<Entity>): (r: seq<Entity>)
    ensures forall e :: e in r <==> e in rows && e.name != "" && e.address != ""
    ensures IsSubsequence(r, rows)
    ensures forall e :: multiset(r)[e] == if e.name != "" && e.address != "" then multiset(rows)[e] else 0
  {
    var keep := (e: Entity) => e.name != "" && e.address != "";
    FilterMultiplicity(rows, keep);
    Filter(rows, keep)
  }

  /** A page's own state around one entity collection of the provider. */
  class EntityPage {
    /** CustomerList on the customers page, RplList on the RPL page. */
    const list: EntityList
    const provider: Provider
    var selectedIds: seq<string>
    var showDuplicatesOnly: bool
    var searchQuery: string

    constructor (list: EntityList, provider: Provider)
      requires list != ZymeList
      ensures this.list == list && this.provider == provider
      ensures selectedIds == [] && !showDuplicatesOnly && searchQuery == ""
    {
      this.list := list;
      this.provider := provider;
      selectedIds := [];
      showDuplicatesOnly := false;
      searchQuery := "";
    }

    /** What the table shows. */
    function Shown(): (r: seq<Entity>)
      reads this, provider
      ensures IsSubsequence(r, provider.Snapshot().Entities(list))
    {
      FilteredData(provider.Snapshot().Entities(list), showDuplicatesOnly, searchQuery)
    }

    /** The "show duplicates" button flips the view; the search box sets the query; the
        table's `onSelectionChange` replaces the selection. */
    method ToggleDuplicates()
      modifies this
      ensures showDuplicatesOnly == !old(showDuplicatesOnly)
      ensures selectedIds == old(selectedIds) && searchQuery == old(searchQuery)
    {
      showDuplicatesOnly := !showDuplicatesOnly;
    }

    method SetQuery(query: string)
      modifies this
      ensures searchQuery == query
      ensures selectedIds == old(selectedIds) && showDuplicatesOnly == old(showDuplicatesOnly)
    {
      searchQuery := query;
    }

    method SetSelection(ids: seq<string>)
      modifies this
      ensures selectedIds == ids
      ensures showDuplicatesOnly == old(showDuplicatesOnly) && searchQuery == old(searchQuery)
    {
      selectedIds := ids;
    }

    /** `handleSave`: an entry with an id replaces the stored one, one without is added with
        the generated id `newId`. */
    method HandleSave(data: Entity, newId: string)
      requires list != ZymeList && provider.Valid()
      modifies provider
      ensures provider.Valid()
      ensures data.id != "" ==> provider.EntityCommitted(list, Update(old(provider.Snapshot().Entities(list)), data))
      ensures data.id == "" ==> provider.EntityCommitted(list, Append(old(provider.Snapshot().Entities(list)), data.(id := newId)))
    {
      if data.id != "" {
        provider.UpdateEntity(list, data);
      } else {
        provider.AddEntity(list, data.(id := newId));
      }
    }

    /** `handleFileUpload` after the workbook has been read: imports the valid rows, if there
        are any, and reports how many there were. */
    method HandleUpload(rows: seq<Entity>, gen: IdOracle) returns (imported: nat)
      requires provider.Valid()
      modifies provider
      ensures provider.Valid()
      ensures imported == |ValidRows(rows)|
      ensures imported > 0 ==> provider.EntityCommitted(list, ImportEntities(old(provider.Snapshot().Entities(list)), ValidRows(rows), gen))
      ensures imported == 0 ==> provider.Snapshot() == old(provider.Snapshot()) && unchanged(provider)
    {
      var validData := ValidRows(rows);
      imported := |validData|;
      if imported > 0 {
        provider.ImportEntityBatch(list, validData, gen);
      }
    }

    /** `handleBulkDelete`, where `confirmed` is the answer to the confirmation dialog: deletes
        the selected entries and empties the selection. */
    method HandleBulkDelete(confirmed: bool)
      requires list != ZymeList && provider.Valid()
      modifies this, provider
      ensures provider.Valid()
      ensures confirmed ==> provider.EntityCommitted(list, DeleteMany(old(provider.Snapshot().Entities(list)), old(selectedIds)))
      ensures confirmed ==> selectedIds == []
      ensures !confirmed ==> unchanged(this) && unchanged(provider)
      ensures showDuplicatesOnly == old(showDuplicatesOnly) && searchQuery == old(searchQuery)
    {
      if confirmed {
        provider.DeleteEntities(list, selectedIds);
        selectedIds := [];
      }
    }
  }
}

/** The country lookup of pages/Countries.tsx over the fixed country list: an exact code wins
    outright, otherwise every country whose name or code contains the term. */
module Countries {
  import opened Types
  import opened Seqs
  import opened Strings

  /** The search term as compared: `searchTerm.toLowerCase().trim()`. */
  function NormalTerm(term: string): string
  {
    Trim(Lower(term))
  }

  predicate CodeIs(c: Country, t: string)
  {
    Lower(c.code) == t
  }

  predicate NameOrCodeContains(c: Country, t: string)
  {
    Contains(Lower(c.name), t) || Contains(Lower(c.code), t)
  }

  /** `COUNTRIES.find(c => c.code.toLowerCase() === lowerTerm)`, as a position. */
  function FindCode(countries: seq<Country>, t: string): (r: Option<nat>)
    ensures r.Some? ==> r.value < |countries| && CodeIs(countries[r.value], t)
    ensures r.Some? ==> forall j :: 0 <= j < r.value ==> !CodeIs(countries[j], t)
    ensures r.None? ==> forall c :: c in countries ==> !CodeIs(c, t)
  {
    if countries == [] then None
    else if CodeIs(countries[0], t) then Some(0)
    else
      var rest := FindCode(countries[1..], t);
      assert forall c :: c in countries ==> c == countries[0] || c in countries[1..];
      if rest.None? then None else Some(rest.value + 1)
  }

  /** `getFilteredCountries`: nothing for a blank term; the first country whose code is the term
      when there is one, alone; otherwise the countries whose name or code contains the term,
      in list order. */
  function FilteredCountries(countries: seq<Country>, term: string): (r: seq<Country>)
    ensures Trim(term) == [] ==> r == []
    ensures Trim(term) != [] && FindCode(countries, NormalTerm(term)).Some? ==>
      r == [countries[FindCode(countries, NormalTerm(term)).value]]
    ensures Trim(term) != [] && FindCode(countries, NormalTerm(term)).None? ==>
      forall c :: c in r <==> c in countries && NameOrCodeContains(c, NormalTerm(term))
    ensures Trim(term) != [] && FindCode(countries, NormalTerm(term)).None? ==>
      forall c :: multiset(r)[c] == if NameOrCodeContains(c, NormalTerm(term)) then multiset(countries)[c] else 0
    ensures IsSubsequence(r, countries)
  {
    if Trim(term) == [] then []
    else
      var t := NormalTerm(term);
      match FindCode(countries, t)
      case Some(i) =>
        SingleIsSubsequence(countries, i);
        [countries[i]]
      case None =>
        var keep := (c: Country) => NameOrCodeContains(c, t);
        FilterMultiplicity(countries, keep);
        Filter(countries, keep)
  }

  lemma {:induction false} SingleIsSubsequence<T(!new)>(s: seq<T>, i: nat)
    requires i < |s|
    ensures IsSubsequence([s[i]], s)
  {
    if i > 0 {
      SingleIsSubsequence(s[1..], i - 1);
    } else {
      assert [s[0]][1..] == [];
    }
  }

  /** An exact code match is also a match of the substring search, so the exact-code answer is
      one of the countries the substring search would have listed. */
  lemma ExactCodeAmongMatches(countries: seq<Country>, term: string)
    requires Trim(term) != []
    requires FindCode(countries, NormalTerm(term)).Some?
    ensures var c := FilteredCountries(countries, term)[0];
      c in countries && NameOrCodeContains(c, NormalTerm(term))
  {
    var t := NormalTerm(term);
    var c := countries[FindCode(countries, t).value];
    assert StartsWith(Lower(c.code), t);
  }

  /** Blank terms: the lookup ignores white space around the term, so a term of spaces finds
      nothing at all. */
  lemma BlankTermFindsNothing(countries: seq<Country>, term: string)
    requires forall i :: 0 <= i < |term| ==> IsSpace(term[i])
    ensures FilteredCountries(countries, term) == []
  {
    TrimEmptyIffBlank(term);
  }
}

/** The comparator on the home page, pages/Home.tsx: pick a customer and a restricted party
    from two search-as-you-type lists of at most five names each, and generate the
    false-match comment in the long or the compact format. */
module Home {
  import opened Types
  import opened Seqs
  import opened Strings

  /** The most entries a dropdown shows. */
  const MaxShown := 5

  /** The lowercased name contains the lowercased search. */
  predicate NameMatches(e: Entity, search: string)
  {
    Contains(Lower(e.name), Lower(search))
  }

  /** `list.filter(e => e.name.toLowerCase().includes(search.toLowerCase())).slice(0, 5)` */
  function TopMatches(s: seq<Entity>, search: string): (r: seq<Entity>)
    ensures |r| <= MaxShown
    ensures forall e :: e in r ==> e in s && NameMatches(e, search)
    ensures IsSubsequence(r, s)
  {
    var matches := Filter(s, (e: Entity) => NameMatches(e, search));
    var r := if |matches| <= MaxShown then matches else matches[..MaxShown];
    assert matches[..|r|] == r;
    SubsequenceOfPrefix(matches, s, |r|);
    SubsequenceElements(r, s);
    r
  }

  /** An independent reading of the dropdown: walk the list and take matching entries until
      `n` have been taken. */
  function FirstMatches(s: seq<Entity>, search: string, n: nat): seq<Entity>
  {
    if s == [] || n == 0 then []
    else if NameMatches(s[0], search) then [s[0]] + FirstMatches(s[1..], search, n - 1)
    else FirstMatches(s[1..], search, n)
  }

  lemma {:induction false} FilterThenTake(s: seq<Entity>, search: string, n: nat)
    ensures var matches := Filter(s, (e: Entity) => NameMatches(e, search));
      FirstMatches(s, search, n) == if |matches| <= n then matches else matches[..n]
  {
    var keep := (e: Entity) => NameMatches(e, search);
    if s == [] {
    } else if n == 0 {
      assert Filter(s, keep)[..0] == [];
    } else if keep(s[0]) {
      var rest := Filter(s[1..], keep);
      assert Filter(s, keep) == [s[0]] + rest;
      FilterThenTake(s[1..], search, n - 1);
      if |rest| > n - 1 {
        assert ([s[0]] + rest)[..n] == [s[0]] + rest[..n - 1];
      }
    } else {
      assert Filter(s, keep) == Filter(s[1..], keep);
      FilterThenTake(s[1..], search, n);
    }
  }

  /** The dropdown is the first five matching entries, in list order. */
  lemma TopMatchesAreFirstMatches(s: seq<Entity>, search: string)
    ensures TopMatches(s, search) == FirstMatches(s, search, MaxShown)
  {
    FilterThenTake(s, search, MaxShown);
  }

  /** An empty search matches every name, so the dropdown holds the first five entries. */
  lemma EmptySearchShowsFirstFive(s: seq<Entity>)
    ensures TopMatches(s, "") == if |s| <= MaxShown then s else s[..MaxShown]
  {
    forall e | e in s
      ensures NameMatches(e, "")
    {
      ContainsEmpty(Lower(e.name));
    }
    FilterKeepsAll(s, (e: Entity) => NameMatches(e, ""));
  }

  const CompactLead := "SPLF - False SPL Match. Customer: "
  const LongLead := "SPLF - False SPL Match- Customer and RPL are different.\nCustomer\nName- "

  /** The compact comment: `SPLF - False SPL Match. Customer: N (A) vs RPL: N' (A')`. */
  function CompactText(c: Entity, r: Entity): string
  {
    CompactLead + c.name + " (" + c.address + ") vs RPL: " + r.name + " (" + r.address + ")"
  }

  /** The long comment: a header line, then the customer's and the RPL's name and address
      lines, ending with a newline. */
  function LongText(c: Entity, r: Entity): string
  {
    LongLead + c.name + "\naddress- " + c.address + "\nRPL -\nName - " + r.name + "\naddress - " + r.address + "\n"
  }

  /** Both formats open with their fixed header and give the customer's name right after it. */
  lemma TextsNameTheCustomerFirst(c: Entity, r: Entity)
    ensures StartsWith(CompactText(c, r), CompactLead) && OccursAt(CompactText(c, r), c.name, |CompactLead|)
    ensures StartsWith(LongText(c, r), LongLead) && OccursAt(LongText(c, r), c.name, |LongLead|)
  {
    OccursBetween(CompactLead, c.name, " (" + c.address + ") vs RPL: " + r.name + " (" + r.address + ")");
    OccursBetween(LongLead, c.name, "\naddress- " + c.address + "\nRPL -\nName - " + r.name + "\naddress - " + r.address + "\n");
  }

  /** Both formats close with the RPL's name and address: the compact one with them in
      `vs RPL: N (A)`, the long one with its two RPL lines and a final newline. */
  lemma TextsEndWithTheRpl(c: Entity, r: Entity)
    ensures EndsWith(CompactText(c, r), ") vs RPL: " + r.name + " (" + r.address + ")")
    ensures EndsWith(LongText(c, r), "\nRPL -\nName - " + r.name + "\naddress - " + r.address + "\n")
  {
    var compactTail := ") vs RPL: " + r.name + " (" + r.address + ")";
    assert CompactText(c, r) == (CompactLead + c.name + " (" + c.address) + compactTail;
    EndsWithLastPart(CompactLead + c.name + " (" + c.address, compactTail);
    var longTail := "\nRPL -\nName - " + r.name + "\naddress - " + r.address + "\n";
    assert LongText(c, r) == (LongLead + c.name + "\naddress- " + c.address) + longTail;
    EndsWithLastPart(LongLead + c.name + "\naddress- " + c.address, longTail);
  }

  /** The page's state. */
  class HomePage {
    var customerSearch: string
    var rplSearch: string
    var selectedCustomer: Option<Entity>
    var selectedRpl: Option<Entity>
    var result: string
    var copied: bool
    var compactFormat: bool

    constructor ()
      ensures customerSearch == "" && rplSearch == "" && selectedCustomer == None && selectedRpl == None
      ensures result == "" && !copied && !compactFormat
    {
      customerSearch, rplSearch := "", "";
      selectedCustomer, selectedRpl := None, None;
      result := "";
      copied, compactFormat := false, false;
    }

    /** The customer dropdown as rendered: shown while there is a search, nothing is selected and
        something matches. */
    function CustomerDropdown(customers: seq<Entity>): (r: seq<Entity>)
      reads this
      ensures |r| <= MaxShown
      ensures r != [] ==> customerSearch != "" && selectedCustomer == None
    {
      if customerSearch != "" && selectedCustomer == None then TopMatches(customers, customerSearch) else []
    }

    function RplDropdown(rpls: seq<Entity>): (r: seq<Entity>)
      reads this
      ensures |r| <= MaxShown
      ensures r != [] ==> rplSearch != "" && selectedRpl == None
    {
      if rplSearch != "" && selectedRpl == None then TopMatches(rpls, rplSearch) else []
    }

    /** `handleGenerate`: nothing happens unless both sides are selected. */
    method Generate()
      modifies this
      ensures selectedCustomer.Some? && selectedRpl.Some? ==>
        result == (if compactFormat then CompactText(selectedCustomer.value, selectedRpl.value)
                   else LongText(selectedCustomer.value, selectedRpl.value))
      ensures !(old(selectedCustomer).Some? && old(selectedRpl).Some?) ==> result == old(result)
      ensures customerSearch == old(customerSearch) && rplSearch == old(rplSearch)
      ensures selectedCustomer == old(selectedCustomer) && selectedRpl == old(selectedRpl)
      ensures copied == old(copied) && compactFormat == old(compactFormat)
    {
      if selectedCustomer.None? || selectedRpl.None? {
        return;
      }
      if compactFormat {
        result := CompactText(selectedCustomer.value, selectedRpl.value);
      } else {
        result := LongText(selectedCustomer.value, selectedRpl.value);
      }
    }

    /** `copyToClipboard`: with a comment generated, it is handed to the clipboard (left out)
        and the copied mark is shown; the timer that hides it again is `CopiedTimeout`. */
    method CopyResult()
      modifies this
      ensures copied == (old(result) != "" || old(copied))
      ensures result == old(result) && compactFormat == old(compactFormat)
      ensures customerSearch == old(customerSearch) && rplSearch == old(rplSearch)
      ensures selectedCustomer == old(selectedCustomer) && selectedRpl == old(selectedRpl)
    {
      if result == "" {
        return;
      }
      copied := true;
    }

    /** The timer set by `copyToClipboard` firing: the copied mark goes away. */
    method CopiedTimeout()
      modifies this
      ensures !copied
      ensures result == old(result) && compactFormat == old(compactFormat)
      ensures customerSearch == old(customerSearch) && rplSearch == old(rplSearch)
      ensures selectedCustomer == old(selectedCustomer) && selectedRpl == old(selectedRpl)
    {
      copied := false;
    }

    /** The compact-format checkbox. */
    method SetCompactFormat(checked: bool)
      modifies this
      ensures compactFormat == checked
      ensures result == old(result) && copied == old(copied)
      ensures customerSearch == old(customerSearch) && rplSearch == old(rplSearch)
      ensures selectedCustomer == old(selectedCustomer) && selectedRpl == old(selectedRpl)
    {
      compactFormat := checked;
    }

    /** `handleClear`: back to the initial state. */
    method Clear()
      modifies this
      ensures customerSearch == "" && rplSearch == "" && selectedCustomer == None && selectedRpl == None
      ensures result == "" && !copied && !compactFormat
    {
      customerSearch, rplSearch := "", "";
      selectedCustomer, selectedRpl := None, None;
      result := "";
      copied, compactFormat := false, false;
    }

    /** Typing in the customer box: a new search, and no customer selected. */
    method TypeCustomer(text: string)
      modifies this
      ensures customerSearch == text && selectedCustomer == None
      ensures rplSearch == old(rplSearch) && selectedRpl == old(selectedRpl)
      ensures result == old(result) && copied == old(copied) && compactFormat == old(compactFormat)
    {
      customerSearch := text;
      selectedCustomer := None;
    }

    /** Picking a customer from the dropdown: it is selected and the search is emptied, which
        hides the dropdown. */
    method PickCustomer(c: Entity)
      modifies this
      ensures selectedCustomer == Some(c) && customerSearch == ""
      ensures forall customers :: CustomerDropdown(customers) == []
      ensures rplSearch == old(rplSearch) && selectedRpl == old(selectedRpl)
      ensures result == old(result) && copied == old(copied) && compactFormat == old(compactFormat)
    {
      selectedCustomer := Some(c);
      customerSearch := "";
    }

    method TypeRpl(text: string)
      modifies this
      ensures rplSearch == text && selectedRpl == None
      ensures customerSearch == old(customerSearch) && selectedCustomer == old(selectedCustomer)
      ensures result == old(result) && copied == old(copied) && compactFormat == old(compactFormat)
    {
      rplSearch := text;
      selectedRpl := None;
    }

    method PickRpl(r: Entity)
      modifies this
      ensures selectedRpl == Some(r) && rplSearch == ""
      ensures forall rpls :: RplDropdown(rpls) == []
      ensures customerSearch == old(customerSearch) && selectedCustomer == old(selectedCustomer)
      ensures result == old(result) && copied == old(copied) && compactFormat == old(compactFormat)
    {
      selectedRpl := Some(r);
      rplSearch := "";
    }
  }
}
